/** `run_one_project` of migrate.py: the enabled steps of one project run in the order
    create, push, prime, reconfigure; each finished step records its duration under its
    name, "total" comes last, the first step that raises skips the rest, and once the
    project has been found again the session is removed in `finally` whatever the steps
    raised. */
module Pipeline {
  import opened Outcomes
  import opened Loops
  import opened FileSystems
  import opened Registry
  import opened MigratePush
  import opened MigrateCache

  datatype Step = Create | Push | Prime | Reconfigure {
    /** The key under which `times` records the step. */
    function Name(): (name: string)
    {
      match this
      case Create => "create"
      case Push => "push"
      case Prime => "prime"
      case Reconfigure => "reconfigure"
    }

    /** The step's position in the fixed order. */
    function Rank(): (rank: nat)
    {
      match this
      case Create => 0
      case Push => 1
      case Prime => 2
      case Reconfigure => 3
    }
  }

  /** A key of the `times` dictionary: a step's name, or "total". */
  datatype TimeKey = Timed(step: Step) | Total {
    function Name(): (n: string)
      ensures this.Timed? ==> n == step.Name()
    {
      match this
      case Timed(s) => s.Name()
      case Total => "total"
    }
  }

  /** The command-line options the pipeline and the run loop read. */
  datatype Flags = Flags(region: string, create: bool, prime: bool, reconfigure: bool, failfast: bool)

  /** The steps the options enable: push always, the others on their flags. */
  function Enabled(f: Flags): (steps: seq<Step>)
  {
    (if f.create then [Create] else []) + [Step.Push]
      + (if f.prime then [Prime] else []) + (if f.reconfigure then [Step.Reconfigure] else [])
  }

  /** Push always runs; every other step runs exactly when its flag is given, and the
      steps come in the fixed order. */
  lemma EnabledSteps(f: Flags)
    ensures var steps := Enabled(f);
            && Step.Push in steps
            && (Create in steps <==> f.create) && (Prime in steps <==> f.prime)
            && (Step.Reconfigure in steps <==> f.reconfigure)
            && forall i, j :: 0 <= i < j < |steps| ==> steps[i].Rank() < steps[j].Rank()
  {
  }

  /** What each step would do if it ran. */
  datatype StepOutcomes = StepOutcomes(create: Outcome, push: Outcome, prime: Outcome, reconfigure: Outcome) {
    function Of(s: Step): (outcome: Outcome)
    {
      match s
      case Create => create
      case Push => push
      case Prime => prime
      case Reconfigure => reconfigure
    }
  }

  /** The steps that ran, the keys of `times` in insertion order, and the outcome. */
  datatype Trace = Trace(executed: seq<Step>, times: seq<TimeKey>, outcome: Outcome)

  function TimeKeys(steps: seq<Step>): (keys: seq<TimeKey>)
    ensures |keys| == |steps| && Total !in keys
    decreases |steps|
  {
    if steps == [] then [] else [Timed(steps[0])] + TimeKeys(steps[1..])
  }

  /** Running `steps` in order; the first one that raises ends the run. */
  function RunSteps(steps: seq<Step>, o: StepOutcomes): (t: Trace)
    decreases |steps|
  {
    if steps == [] then Trace([], [Total], Pass)
    else if o.Of(steps[0]).Fail? then Trace([steps[0]], [], o.Of(steps[0]))
    else
      var rest := RunSteps(steps[1..], o);
      Trace([steps[0]] + rest.executed, [Timed(steps[0])] + rest.times, rest.outcome)
  }

  predicate AllPass(steps: seq<Step>, o: StepOutcomes)
  {
    forall k :: 0 <= k < |steps| ==> o.Of(steps[k]).Pass?
  }

  /** The shape of every run: a prefix of the steps ran; it passed exactly when every step
      passes, and then "total" was recorded last; otherwise the last step that ran raised,
      the ones before it passed, only those were timed, and "total" was not recorded. */
  predicate WellFormed(t: Trace, steps: seq<Step>, o: StepOutcomes)
  {
    && |t.executed| <= |steps| && t.executed == steps[..|t.executed|]
    && (t.outcome.Pass? <==> AllPass(steps, o))
    && (t.outcome.Pass? ==> t.executed == steps && t.times == TimeKeys(steps) + [Total])
    && (t.outcome.Fail? ==>
          && t.executed != []
          && t.outcome == o.Of(t.executed[|t.executed| - 1])
          && AllPass(t.executed[..|t.executed| - 1], o)
          && t.times == TimeKeys(t.executed[..|t.executed| - 1]))
  }

  /** Only a prefix of the steps runs. */
  lemma {:induction false} RunStepsPrefix(steps: seq<Step>, o: StepOutcomes)
    ensures var t := RunSteps(steps, o);
            |t.executed| <= |steps| && t.executed == steps[..|t.executed|]
    decreases |steps|
  {
    if steps != [] {
      RunStepsPrefix(steps[1..], o);
      var rest := RunSteps(steps[1..], o);
      assert steps[..|rest.executed| + 1] == [steps[0]] + steps[1..][..|rest.executed|];
    }
  }

  lemma AllPassCons(steps: seq<Step>, o: StepOutcomes)
    requires steps != []
    ensures AllPass(steps, o) <==> o.Of(steps[0]).Pass? && AllPass(steps[1..], o)
  {
    if o.Of(steps[0]).Pass? && AllPass(steps[1..], o) {
      forall k | 0 < k < |steps| ensures o.Of(steps[k]).Pass? {
        assert steps[k] == steps[1..][k - 1];
      }
    }
  }

  /** A run passes exactly when every step passes, and then every step ran and was
      timed, and "total" came last. */
  lemma {:induction false} RunStepsPasses(steps: seq<Step>, o: StepOutcomes)
    ensures var t := RunSteps(steps, o);
            && (t.outcome.Pass? <==> AllPass(steps, o))
            && (t.outcome.Pass? ==> t.executed == steps && t.times == TimeKeys(steps) + [Total])
    decreases |steps|
  {
    if steps != [] {
      AllPassCons(steps, o);
      if o.Of(steps[0]).Pass? {
        RunStepsPasses(steps[1..], o);
        assert steps == [steps[0]] + steps[1..];
      }
    }
  }

  /** A run that fails ends with the step that raised; the steps before it passed and
      were timed. */
  lemma {:induction false} RunStepsFails(steps: seq<Step>, o: StepOutcomes)
    ensures var t := RunSteps(steps, o);
            t.outcome.Fail? ==>
              && t.executed != []
              && t.outcome == o.Of(t.executed[|t.executed| - 1])
              && AllPass(t.executed[..|t.executed| - 1], o)
              && t.times == TimeKeys(t.executed[..|t.executed| - 1])
    decreases |steps|
  {
    if steps != [] && o.Of(steps[0]).Pass? {
      var rest := RunSteps(steps[1..], o);
      RunStepsFails(steps[1..], o);
      if rest.outcome.Fail? {
        var t := RunSteps(steps, o);
        var n := |rest.executed|;
        assert t.executed[..|t.executed| - 1] == [steps[0]] + rest.executed[..n - 1];
        AllPassCons(t.executed[..|t.executed| - 1], o);
        assert ([steps[0]] + rest.executed[..n - 1])[1..] == rest.executed[..n - 1];
      }
    }
  }

  lemma RunStepsWellFormed(steps: seq<Step>, o: StepOutcomes)
    ensures WellFormed(RunSteps(steps, o), steps, o)
  {
    RunStepsPrefix(steps, o);
    RunStepsPasses(steps, o);
    RunStepsFails(steps, o);
  }

  /** A run stops at the first step that raises: at most the steps up to a raising one
      run, and "total" is not recorded. */
  lemma {:induction false} FailureStops(steps: seq<Step>, o: StepOutcomes, i: nat)
    requires i < |steps| && o.Of(steps[i]).Fail?
    ensures var t := RunSteps(steps, o);
            t.outcome.Fail? && Total !in t.times
            && |t.executed| <= i + 1 && t.executed == steps[..|t.executed|]
    decreases i
  {
    if o.Of(steps[0]).Pass? {
      FailureStops(steps[1..], o, i - 1);
      var rest := RunSteps(steps[1..], o);
      assert steps[..|rest.executed| + 1] == [steps[0]] + steps[1..][..|rest.executed|];
    } else {
      assert steps[..1] == [steps[0]];
    }
  }

  /** With the steps in increasing rank, no step ranked after one that raises runs. */
  lemma FailureBoundsRanks(steps: seq<Step>, o: StepOutcomes, i: nat)
    requires i < |steps| && o.Of(steps[i]).Fail?
    requires forall a, b :: 0 <= a < b < |steps| ==> steps[a].Rank() < steps[b].Rank()
    ensures forall s2 :: s2 in RunSteps(steps, o).executed ==> s2.Rank() <= steps[i].Rank()
  {
    FailureStops(steps, o, i);
    var t := RunSteps(steps, o);
    forall s2 | s2 in t.executed ensures s2.Rank() <= steps[i].Rank() {
      var j :| 0 <= j < |t.executed| && t.executed[j] == s2;
      assert steps[j] == s2;
    }
  }

  /** A step that raises stops the pipeline: no enabled step after it runs, and "total"
      is never recorded. */
  lemma FailureSkipsLaterSteps(f: Flags, o: StepOutcomes, s: Step)
    requires s in Enabled(f) && o.Of(s).Fail?
    ensures var t := RunSteps(Enabled(f), o);
            t.outcome.Fail? && Total !in t.times
            && forall s2 :: s2 in t.executed ==> s2.Rank() <= s.Rank()
  {
    var steps := Enabled(f);
    EnabledSteps(f);
    var i :| 0 <= i < |steps| && steps[i] == s;
    FailureStops(steps, o, i);
    FailureBoundsRanks(steps, o, i);
  }

  /** With push failing, reconfigure (and prime) never run, so the project's region is not
      written. */
  lemma PushFailureSkipsReconfigure(f: Flags, o: StepOutcomes)
    requires o.push.Fail?
    ensures Step.Reconfigure !in RunSteps(Enabled(f), o).executed
    ensures Prime !in RunSteps(Enabled(f), o).executed
  {
    EnabledSteps(f);
    FailureSkipsLaterSteps(f, o, Step.Push);
  }

  /** Running a prefix whose steps all pass, then the rest. */
  lemma {:induction false} RunStepsAppend(a: seq<Step>, b: seq<Step>, o: StepOutcomes)
    requires AllPass(a, o)
    ensures var rb := RunSteps(b, o);
            RunSteps(a + b, o) == Trace(a + rb.executed, TimeKeys(a) + rb.times, rb.outcome)
    decreases |a|
  {
    var rb := RunSteps(b, o);
    if a != [] {
      var tail := a[1..];
      assert (a + b)[0] == a[0] && (a + b)[1..] == tail + b;
      assert o.Of(a[0]).Pass?;
      assert AllPass(tail, o) by {
        forall k | 0 <= k < |tail| ensures o.Of(tail[k]).Pass? {
          assert tail[k] == a[k + 1];
        }
      }
      RunStepsAppend(tail, b, o);
      var rest := RunSteps(tail + b, o);
      assert RunSteps(a + b, o) == Trace([a[0]] + rest.executed, [Timed(a[0])] + rest.times, rest.outcome);
      assert TimeKeys(a) == [Timed(a[0])] + TimeKeys(tail);
      assert [a[0]] + (tail + rb.executed) == a + rb.executed;
      assert [Timed(a[0])] + (TimeKeys(tail) + rb.times) == TimeKeys(a) + rb.times;
    } else {
      assert a + b == b;
    }
  }

  lemma {:induction false} NamesAppend(a: seq<Step>, s: Step)
    ensures TimeKeys(a + [s]) == TimeKeys(a) + [Timed(s)]
    decreases |a|
  {
    if a != [] {
      assert (a + [s])[1..] == a[1..] + [s];
      NamesAppend(a[1..], s);
    } else {
      assert TimeKeys([s]) == [Timed(s)] + TimeKeys([]);
    }
  }

  predicate IsEnabled(f: Flags, s: Step)
  {
    match s
    case Create => f.create
    case Push => true
    case Prime => f.prime
    case Reconfigure => f.reconfigure
  }

  /** The enabled steps of rank `k` or more. */
  function Remaining(f: Flags, k: nat): (steps: seq<Step>)
  {
    (if k <= 0 && f.create then [Create] else []) + (if k <= 1 then [Step.Push] else [])
      + (if k <= 2 && f.prime then [Prime] else []) + (if k <= 3 && f.reconfigure then [Step.Reconfigure] else [])
  }

  /** Part way through a run: the steps that ran all passed and were timed, and the
      enabled steps of rank `k` or more are still to come. */
  predicate Ongoing(f: Flags, o: StepOutcomes, executed: seq<Step>, times: seq<TimeKey>, k: nat)
  {
    Enabled(f) == executed + Remaining(f, k) && AllPass(executed, o) && times == TimeKeys(executed)
  }

  lemma Begin(f: Flags, o: StepOutcomes)
    ensures Ongoing(f, o, [], [], 0)
  {
    assert Enabled(f) == [] + Remaining(f, 0);
  }

  lemma RemainingFrom(f: Flags, s: Step)
    ensures Remaining(f, s.Rank()) == (if IsEnabled(f, s) then [s] else []) + Remaining(f, s.Rank() + 1)
  {
  }

  /** A disabled step is passed over. */
  lemma Skip(f: Flags, o: StepOutcomes, executed: seq<Step>, times: seq<TimeKey>, s: Step)
    requires Ongoing(f, o, executed, times, s.Rank()) && !IsEnabled(f, s)
    ensures Ongoing(f, o, executed, times, s.Rank() + 1)
  {
    RemainingFrom(f, s);
  }

  lemma Regroup<T>(a: seq<T>, x: T, b: seq<T>)
    ensures a + ([x] + b) == (a + [x]) + b
  {
  }

  lemma AllPassAppend(done: seq<Step>, s: Step, o: StepOutcomes)
    requires AllPass(done, o) && o.Of(s).Pass?
    ensures AllPass(done + [s], o)
  {
    assert forall k :: 0 <= k < |done| ==> (done + [s])[k] == done[k];
  }

  /** An enabled step that passes is recorded under its name. */
  lemma Advance(f: Flags, o: StepOutcomes, executed: seq<Step>, times: seq<TimeKey>, s: Step)
    requires Ongoing(f, o, executed, times, s.Rank()) && IsEnabled(f, s) && o.Of(s).Pass?
    ensures Ongoing(f, o, executed + [s], times + [Timed(s)], s.Rank() + 1)
  {
    RemainingFrom(f, s);
    Regroup(executed, s, Remaining(f, s.Rank() + 1));
    NamesAppend(executed, s);
    AllPassAppend(executed, s, o);
  }

  /** An enabled step that raises ends the run with its error. */
  lemma Stop(f: Flags, o: StepOutcomes, executed: seq<Step>, times: seq<TimeKey>, s: Step)
    requires Ongoing(f, o, executed, times, s.Rank()) && IsEnabled(f, s) && o.Of(s).Fail?
    ensures RunSteps(Enabled(f), o) == Trace(executed + [s], times, o.Of(s))
  {
    RemainingFrom(f, s);
    var rest := Remaining(f, s.Rank() + 1);
    assert Enabled(f) == executed + ([s] + rest);
    RunStepsAppend(executed, [s] + rest, o);
  }

  /** All enabled steps passed: "total" is recorded last. */
  lemma Finish(f: Flags, o: StepOutcomes, executed: seq<Step>, times: seq<TimeKey>)
    requires Ongoing(f, o, executed, times, 4)
    ensures RunSteps(Enabled(f), o) == Trace(executed, times + [Total], Pass)
  {
    assert Enabled(f) == executed + [];
    RunStepsAppend(executed, [], o);
  }

  function StepAt(k: nat): (s: Step)
    requires k < 4
    ensures s.Rank() == k
  {
    if k == 0 then Create else if k == 1 then Step.Push else if k == 2 then Prime else Step.Reconfigure
  }

  /** The run from rank `k` on, after the steps `done` passed and recorded `times`: the
      steps in the order the body of `run_one_project` takes them. */
  function From(f: Flags, o: StepOutcomes, k: nat, done: seq<Step>, times: seq<TimeKey>): (t: Trace)
    decreases 4 - k
  {
    if k >= 4 then Trace(done, times + [Total], Pass)
    else
      var s := StepAt(k);
      if !IsEnabled(f, s) then From(f, o, k + 1, done, times)
      else if o.Of(s).Fail? then Trace(done + [s], times, o.Of(s))
      else From(f, o, k + 1, done + [s], times + [Timed(s)])
  }

  lemma {:induction false} FromOngoing(f: Flags, o: StepOutcomes, k: nat, done: seq<Step>, times: seq<TimeKey>)
    requires k <= 4 && Ongoing(f, o, done, times, k)
    ensures From(f, o, k, done, times) == RunSteps(Enabled(f), o)
    decreases 4 - k
  {
    if k == 4 {
      Finish(f, o, done, times);
    } else {
      var s := StepAt(k);
      if !IsEnabled(f, s) {
        Skip(f, o, done, times, s);
        FromOngoing(f, o, k + 1, done, times);
      } else if o.Of(s).Fail? {
        Stop(f, o, done, times, s);
      } else {
        Advance(f, o, done, times, s);
        FromOngoing(f, o, k + 1, done + [s], times + [Timed(s)]);
      }
    }
  }

  /** Walking the four steps in turn is running the enabled list. */
  lemma FromIsRunSteps(f: Flags, o: StepOutcomes)
    ensures From(f, o, 0, [], []) == RunSteps(Enabled(f), o)
  {
    Begin(f, o);
    FromOngoing(f, o, 0, [], []);
  }

  /** What the `prime` step does to a cache starting from the filesystem `e`. */
  function PrimeRun(w: World, f: Flags, p: Project, e: Entries): (r: Run<Cache>)
  {
    RunAll(PrimeStep(w, p, f.region), Cache(e, []), w.repoTypes)
  }

  /** What each step of a project does, by the model of that step.  Neither creating nor
      pushing touches the cache, so priming starts from the filesystem `e` of the start. */
  function ProjectOutcomes(w: World, f: Flags, p: Project, e: Entries, createOk: bool, commitOk: bool): (o: StepOutcomes)
  {
    StepOutcomes(
      if createOk then Pass else Fail(CreationFailed),
      RunAll(PushStep(w, p, f.region), [], w.repoTypes).outcome,
      PrimeRun(w, f, p, e).outcome,
      if commitOk then Pass else Fail(CommitFailed))
  }

  /** The filesystem after the steps `executed` ran from `e`: only priming touches it. */
  function EntriesAfter(w: World, f: Flags, p: Project, e: Entries, executed: seq<Step>): (entries: Entries)
  {
    if Prime in executed then PrimeRun(w, f, p, e).state.entries else e
  }

  /** The region a project is left with when `last` is the last step that ran: a failed
      create leaves it alone, pushing and priming clear it, reconfiguring sets it. */
  function RegionAfter(last: Step, region: string, before: Option<string>): (after: Option<string>)
  {
    match last
    case Create => before
    case Push => None
    case Prime => None
    case Reconfigure => Some(region)
  }

  /** `reconfigure`: mark the project as living in `region`, add it to the session and
      commit at once. */
  method Reconfigure(region: string, session: Session, project: Project, commitOk: bool) returns (r: Outcome)
    modifies session, project
    ensures project.repospannerRegion == Some(region)
    ensures session.added == old(session.added) + [project.fullname]
    ensures session.commits == old(session.commits) + (if commitOk then 1 else 0)
    ensures session.removed == old(session.removed)
    ensures r == if commitOk then Pass else Fail(CommitFailed)
  {
    project.repospannerRegion := Some(region);
    session.added := session.added + [project.fullname];
    if commitOk {
      session.commits := session.commits + 1;
      r := Pass;
    } else {
      r := Fail(CommitFailed);
    }
  }

  /** The `create` step of `run_one_project`, when enabled; `createOk` stands for
      Pagure's creation of the project's repoSpanner repositories. */
  method CreateStage(f: Flags, createOk: bool, ghost o: StepOutcomes, executed: seq<Step>, times: seq<TimeKey>)
    returns (executed': seq<Step>, times': seq<TimeKey>, r: Outcome)
    requires o.create == if createOk then Pass else Fail(CreationFailed)
    ensures From(f, o, 0, executed, times) ==
      if r.Fail? then Trace(executed', times', r) else From(f, o, 1, executed', times')
    ensures executed' == executed + (if f.create then [Create] else [])
  {
    executed', times', r := executed, times, Pass;
    if f.create {
      executed' := executed + [Create];
      if !createOk {
        r := Fail(CreationFailed);
        return;
      }
      times' := times + [Timed(Create)];
    }
  }

  /** The `push` step of `run_one_project`, which always runs. */
  method PushStage(w: World, f: Flags, project: Project, ghost o: StepOutcomes,
                   executed: seq<Step>, times: seq<TimeKey>)
    returns (pushes: seq<MigratePush.Push>, executed': seq<Step>, times': seq<TimeKey>, r: Outcome)
    requires o.push == RunAll(PushStep(w, project, f.region), [], w.repoTypes).outcome
    modifies project
    ensures From(f, o, 1, executed, times) ==
      if r.Fail? then Trace(executed', times', r) else From(f, o, 2, executed', times')
    ensures executed' == executed + [Step.Push]
    ensures Run(pushes, r) == RunAll(PushStep(w, project, f.region), [], w.repoTypes)
    ensures project.repospannerRegion == None
  {
    pushes, r := RunGitPush(w, project, f.region);
    executed', times' := executed + [Step.Push], times;
    if r.Pass? {
      times' := times + [Timed(Step.Push)];
    }
  }

  /** The `prime` step of `run_one_project`, when enabled. */
  method PrimeStage(w: World, f: Flags, project: Project, fs: FileSystem, ghost o: StepOutcomes,
                    executed: seq<Step>, times: seq<TimeKey>)
    returns (executed': seq<Step>, times': seq<TimeKey>, r: Outcome)
    requires o.prime == PrimeRun(w, f, project, fs.entries).outcome
    requires project.repospannerRegion == None
    modifies project, fs
    ensures From(f, o, 2, executed, times) ==
      if r.Fail? then Trace(executed', times', r) else From(f, o, 3, executed', times')
    ensures executed' == executed + (if f.prime then [Prime] else [])
    ensures fs.entries == if f.prime then PrimeRun(w, f, project, old(fs.entries)).state.entries else old(fs.entries)
    ensures project.repospannerRegion == None
  {
    executed', times', r := executed, times, Pass;
    if f.prime {
      var calls;
      calls, r := PrimeCache(w, project, f.region, fs);
      executed' := executed + [Prime];
      if r.Pass? {
        times' := times + [Timed(Prime)];
      }
    }
  }

  /** The `reconfigure` step of `run_one_project`, when enabled. */
  method ReconfigureStage(f: Flags, session: Session, project: Project, commitOk: bool, ghost o: StepOutcomes,
                          executed: seq<Step>, times: seq<TimeKey>)
    returns (executed': seq<Step>, times': seq<TimeKey>, r: Outcome)
    requires o.reconfigure == if commitOk then Pass else Fail(CommitFailed)
    modifies session, project
    ensures From(f, o, 3, executed, times) ==
      if r.Fail? then Trace(executed', times', r) else From(f, o, 4, executed', times')
    ensures executed' == executed + (if f.reconfigure then [Step.Reconfigure] else [])
    ensures project.repospannerRegion ==
      if f.reconfigure then Some(f.region) else old(project.repospannerRegion)
    ensures session.added == old(session.added) + (if f.reconfigure then [project.fullname] else [])
    ensures session.commits == old(session.commits) + (if f.reconfigure && commitOk then 1 else 0)
    ensures session.removed == old(session.removed)
  {
    executed', times', r := executed, times, Pass;
    if f.reconfigure {
      r := Reconfigure(f.region, session, project, commitOk);
      executed' := executed + [Step.Reconfigure];
      if r.Pass? {
        times' := times + [Timed(Step.Reconfigure)];
      }
    }
  }

  /** The steps of `run_one_project` from `push` on, after `create` passed or was off. */
  method PushOnwards(w: World, f: Flags, project: Project, session: Session, fs: FileSystem, createOk: bool, commitOk: bool,
                     ghost o: StepOutcomes, executed: seq<Step>, times: seq<TimeKey>)
    returns (executed': seq<Step>, times': seq<TimeKey>, r: Outcome)
    requires o == ProjectOutcomes(w, f, project, fs.entries, createOk, commitOk)
    requires Prime !in executed && Step.Reconfigure !in executed
    modifies project, session, fs
    ensures Trace(executed', times', r) == From(f, o, 1, executed, times)
    ensures executed' != []
    ensures project.repospannerRegion == RegionAfter(executed'[|executed'| - 1], f.region, old(project.repospannerRegion))
    ensures fs.entries == EntriesAfter(w, f, project, old(fs.entries), executed')
    ensures session.added == old(session.added) + (if Step.Reconfigure in executed' then [project.fullname] else [])
    ensures session.commits == old(session.commits) + (if Step.Reconfigure in executed' && commitOk then 1 else 0)
    ensures session.removed == old(session.removed)
  {
    var pushes;
    pushes, executed', times', r := PushStage(w, f, project, o, executed, times);
    if r.Fail? {
      return;
    }
    executed', times', r := PrimeStage(w, f, project, fs, o, executed', times');
    if r.Fail? {
      return;
    }
    ghost var primed := executed';
    assert primed[|primed| - 1] == if f.prime then Prime else Step.Push;
    executed', times', r := ReconfigureStage(f, session, project, commitOk, o, executed', times');
    if r.Fail? {
      return;
    }
    times' := times' + [Total];
  }

  /** The body of the `try` of `run_one_project`: the enabled steps in order, each timed,
      and "total" once all of them passed. */
  method MigrateProject(w: World, f: Flags, project: Project, session: Session, fs: FileSystem,
                        createOk: bool, commitOk: bool)
    returns (executed: seq<Step>, times: seq<TimeKey>, r: Outcome)
    modifies project, session, fs
    ensures Trace(executed, times, r) == From(f, ProjectOutcomes(w, f, project, old(fs.entries), createOk, commitOk), 0, [], [])
    ensures executed != []
    ensures project.repospannerRegion == RegionAfter(executed[|executed| - 1], f.region, old(project.repospannerRegion))
    ensures fs.entries == EntriesAfter(w, f, project, old(fs.entries), executed)
    ensures session.added == old(session.added) + (if Step.Reconfigure in executed then [project.fullname] else [])
    ensures session.commits == old(session.commits) + (if Step.Reconfigure in executed && commitOk then 1 else 0)
    ensures session.removed == old(session.removed)
  {
    ghost var o := ProjectOutcomes(w, f, project, fs.entries, createOk, commitOk);
    executed, times, r := CreateStage(f, createOk, o, [], []);
    if r.Fail? {
      return;
    }
    executed, times, r := PushOnwards(w, f, project, session, fs, createOk, commitOk, o, executed, times);
  }

  /** `run_one_project`.  `project` is null when the project cannot be found again by
      name: that raises before the `try`, so the session is not removed. */
  method RunOneProject(w: World, f: Flags, project: Project?, session: Session, fs: FileSystem,
                       createOk: bool, commitOk: bool)
    returns (executed: seq<Step>, times: seq<TimeKey>, r: Outcome)
    modifies project, session, fs
    ensures project == null ==>
      executed == [] && times == [] && r == Fail(ProjectNotFound) && fs.entries == old(fs.entries) &&
      session.added == old(session.added) && session.commits == old(session.commits) &&
      session.removed == old(session.removed)
    ensures project != null ==> session.removed
    ensures project != null ==> fs.entries == EntriesAfter(w, f, project, old(fs.entries), executed)
    ensures project != null ==>
      session.added == old(session.added) + (if Step.Reconfigure in executed then [project.fullname] else [])
    ensures project != null ==>
      session.commits == old(session.commits) + (if Step.Reconfigure in executed && commitOk then 1 else 0)
    ensures project != null ==>
      Trace(executed, times, r) ==
        RunSteps(Enabled(f), ProjectOutcomes(w, f, project, old(fs.entries), createOk, commitOk))
    ensures project != null ==> executed != []
    ensures project != null ==>
      project.repospannerRegion == RegionAfter(executed[|executed| - 1], f.region, old(project.repospannerRegion))
  {
    if project == null {
      executed, times, r := [], [], Fail(ProjectNotFound);
      return;
    }
    FromIsRunSteps(f, ProjectOutcomes(w, f, project, fs.entries, createOk, commitOk));
    executed, times, r := MigrateProject(w, f, project, session, fs, createOk, commitOk);
    session.removed := true;
  }
}
