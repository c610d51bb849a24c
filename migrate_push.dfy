/** `run_git_push` and `_run_git_push` of migrate.py: push every repository of a project
    that exists on disk to repoSpanner, one `git push` per repository type carrying all
    of its references, with the project's region set only for the duration. */
module MigratePush {
  import opened Outcomes
  import opened Loops
  import opened Process
  import opened Bridge
  import opened Registry

  /** One push as issued, tagged with its repository type. */
  datatype Push = Push(repotype: string, call: Invocation)

  /** The push of the repository of type `repotype` kept in `dir`. */
  function PushCall(w: World, p: Project, region: string, repotype: string, dir: string): (call: Invocation)
    ensures |call.cmd| == 5 + |w.localRefs(dir)|
    ensures call.cmd[..4] == GitExt + ["push"] && call.cmd[5..] == w.localRefs(dir)
    ensures call.cwd == Some(dir)
  {
    var loc := w.location(p.fullname, repotype, region);
    var extras := ExtraArgs(repotype, p.name, p.user, p.namespace);
    Invocation(PushCommand(w.binary, extras, w.repoName(p.fullname, repotype), w.localRefs(dir)),
               Some(dir), Some(w.environ + BridgeEnvironment(loc.info)))
  }

  /** One iteration of the loop over REPOTYPES: skip a type not in use, otherwise push
      it; a non-zero exit status raises. */
  function PushOne(w: World, p: Project, region: string, done: seq<Push>, t: string): (r: Run<seq<Push>>)
  {
    if t !in p.repoPaths then Run(done, Pass)
    else
      var call := PushCall(w, p, region, t, p.repoPaths[t]);
      var code := w.exitCode(call);
      Run(done + [Push(t, call)], if code != 0 then Fail(CalledProcessError(code)) else Pass)
  }

  /** The loop body as a step function for `RunAll`. */
  function PushStep(w: World, p: Project, region: string): (step: (seq<Push>, string) -> Run<seq<Push>>)
  {
    (done: seq<Push>, t: string) => PushOne(w, p, region, done, t)
  }

  /** The repository types in use, in the order of `types`. */
  function Present(types: seq<string>, paths: map<string, string>): (r: seq<string>)
    ensures forall k :: 0 <= k < |r| ==> r[k] in paths && r[k] in types
    decreases |types|
  {
    if types == [] then []
    else
      var front := Present(types[..|types| - 1], paths);
      var t := types[|types| - 1];
      if t in paths then front + [t] else front
  }

  /** The pushes the loop issues when none fails: one for each type in use, in order, each
      the push of that type's repository. */
  function Planned(w: World, p: Project, region: string, types: seq<string>): (plan: seq<Push>)
    ensures |plan| == |Present(types, p.repoPaths)|
    ensures forall k :: 0 <= k < |plan| ==>
      plan[k].repotype == Present(types, p.repoPaths)[k] && plan[k].repotype in p.repoPaths &&
      plan[k].call == PushCall(w, p, region, plan[k].repotype, p.repoPaths[plan[k].repotype])
    decreases |types|
  {
    if types == [] then []
    else
      var front := Planned(w, p, region, types[..|types| - 1]);
      var t := types[|types| - 1];
      if t in p.repoPaths then front + [Push(t, PushCall(w, p, region, t, p.repoPaths[t]))] else front
  }

  /** A type is in the plan exactly when it is one of `types` and in use; with REPOTYPES
      free of repetitions, each type in use is pushed exactly once. */
  lemma {:induction false} PresentIsFilter(types: seq<string>, paths: map<string, string>, t: string)
    ensures t in Present(types, paths) <==> t in types && t in paths
    ensures (forall i, j :: 0 <= i < j < |types| ==> types[i] != types[j]) ==>
      forall i, j :: 0 <= i < j < |Present(types, paths)| ==> Present(types, paths)[i] != Present(types, paths)[j]
    decreases |types|
  {
    if types != [] {
      var front := types[..|types| - 1];
      PresentIsFilter(front, paths, t);
      PresentIsFilter(front, paths, types[|types| - 1]);
      assert types == front + [types[|types| - 1]];
    }
  }

  /** Every push of `plan` exits with status 0. */
  predicate AllPass(plan: seq<Push>, code: Invocation -> int)
  {
    forall k :: 0 <= k < |plan| ==> code(plan[k].call) == 0
  }

  /** The run stopped right after its first failing push, and raised that push's status. */
  predicate StopsAtFailure(run: Run<seq<Push>>, code: Invocation -> int)
  {
    && run.outcome.Fail?
    && run.state != []
    && code(run.state[|run.state| - 1].call) != 0
    && run.outcome.error == CalledProcessError(code(run.state[|run.state| - 1].call))
    && forall k :: 0 <= k < |run.state| - 1 ==> code(run.state[k].call) == 0
  }

  /** The run issued a prefix of the plan; it returned normally exactly when the whole plan
      passes, and then issued all of it; otherwise it stopped at the first failure. */
  predicate FollowsPlan(run: Run<seq<Push>>, plan: seq<Push>, code: Invocation -> int)
  {
    && |run.state| <= |plan| && run.state == plan[..|run.state|]
    && (run.outcome.Pass? <==> AllPass(plan, code))
    && (run.outcome.Pass? ==> run.state == plan)
    && (run.outcome.Fail? ==> StopsAtFailure(run, code))
  }

  lemma FollowsLongerPlan(run: Run<seq<Push>>, plan: seq<Push>, longer: seq<Push>, code: Invocation -> int)
    requires FollowsPlan(run, plan, code) && run.outcome.Fail?
    requires |plan| <= |longer| && longer[..|plan|] == plan
    ensures FollowsPlan(run, longer, code)
  {
    var n := |run.state|;
    assert longer[..n] == plan[..n];
    assert !AllPass(longer, code) by {
      assert longer[n - 1] == run.state[n - 1];
    }
  }

  lemma FollowsExtendedPlan(plan: seq<Push>, x: Push, code: Invocation -> int)
    requires AllPass(plan, code)
    ensures var out := if code(x.call) != 0 then Fail(CalledProcessError(code(x.call))) else Pass;
            FollowsPlan(Run(plan + [x], out), plan + [x], code)
  {
    var run := plan + [x];
    assert run[..|run|] == run;
    forall k | 0 <= k < |run| - 1 ensures code(run[k].call) == 0 {
      assert run[k] == plan[k];
    }
    assert run[|run| - 1] == x;
    if code(x.call) == 0 {
      assert AllPass(run, code);
    }
  }

  /** What the loop of `_run_git_push` does, compared with the plan: it issues a prefix of
      the planned pushes; it returns normally exactly when every planned push exits with
      status 0, and then it has issued them all; otherwise it stops right after the first
      failing push, whose status it raises. */
  lemma {:induction false} PushesFollowPlan(w: World, p: Project, region: string, types: seq<string>)
    ensures FollowsPlan(RunAll(PushStep(w, p, region), [], types), Planned(w, p, region, types), w.exitCode)
    decreases |types|
  {
    var run := RunAll(PushStep(w, p, region), [], types);
    var plan := Planned(w, p, region, types);
    if types == [] {
      assert run == Run([], Pass) && plan == [];
    } else {
      var front := types[..|types| - 1];
      var t := types[|types| - 1];
      PushesFollowPlan(w, p, region, front);
      var prev := RunAll(PushStep(w, p, region), [], front);
      var planF := Planned(w, p, region, front);
      assert run == if prev.outcome.Fail? then prev else PushStep(w, p, region)(prev.state, t);
      if prev.outcome.Fail? {
        PlannedGrows(w, p, region, types);
        FollowsLongerPlan(prev, planF, plan, w.exitCode);
      } else {
        assert run == PushOne(w, p, region, prev.state, t);
        if t in p.repoPaths {
          var x := Push(t, PushCall(w, p, region, t, p.repoPaths[t]));
          assert plan == planF + [x];
          FollowsExtendedPlan(planF, x, w.exitCode);
        } else {
          assert plan == planF;
        }
      }
    }
  }

  lemma PlannedGrows(w: World, p: Project, region: string, types: seq<string>)
    requires types != []
    ensures var planF := Planned(w, p, region, types[..|types| - 1]);
            var plan := Planned(w, p, region, types);
            |planF| <= |plan| && plan[..|planF|] == planF
  {
  }

  /** `_run_git_push`.  The caller has set the project's region to `region`; the loop looks
      the region up on the project, the way Pagure's helpers do. */
  method PushRepos(w: World, project: Project, region: string) returns (pushes: seq<Push>, r: Outcome)
    requires project.repospannerRegion == Some(region)
    ensures Run(pushes, r) == RunAll(PushStep(w, project, region), [], w.repoTypes)
  {
    var types := w.repoTypes;
    ghost var step := PushStep(w, project, region);
    pushes := [];
    var i := 0;
    while i < |types|
      invariant 0 <= i <= |types|
      invariant RunAll(step, [], types[..i]) == Run(pushes, Pass)
    {
      var t := types[i];
      PassingPrefix(step, [], types, i);
      var currentdir := project.RepoPath(t);
      if currentdir.None? {
        i := i + 1;
        continue;
      }
      var dir := currentdir.value;
      var loc := w.location(project.fullname, t, project.repospannerRegion.value);
      var pushargs := ExtraArgs(t, project.name, project.user, project.namespace);
      var environ := CopyAndUpdate(w.environ, BridgeEnvironment(loc.info));
      var command := GitExt + ["push", PushRemote(w.binary, pushargs, w.repoName(project.fullname, t))];
      command := command + w.localRefs(dir);
      var call := Invocation(command, Some(dir), Some(environ));
      assert call == PushCall(w, project, region, t, dir);
      assert step(pushes, t) == PushOne(w, project, region, pushes, t);
      pushes := pushes + [Push(t, call)];
      var code := w.exitCode(call);
      if code != 0 {
        r := Fail(CalledProcessError(code));
        StaysFailed(step, [], types, i + 1);
        return;
      }
      i := i + 1;
    }
    assert types[..|types|] == types;
    r := Pass;
  }

  /** `run_git_push`: set the project's region to the target region, push, and reset the
      region to None in `finally`, whether or not a push raised. */
  method RunGitPush(w: World, project: Project, region: string) returns (pushes: seq<Push>, r: Outcome)
    modifies project
    ensures project.repospannerRegion == None
    ensures Run(pushes, r) == RunAll(PushStep(w, project, region), [], w.repoTypes)
  {
    project.repospannerRegion := Some(region);
    pushes, r := PushRepos(w, project, region);
    project.repospannerRegion := None;
  }

  /** The environment every push runs with: the script's own, with the helper's six
      variables taken from the region of the repository type being pushed. */
  lemma PushEnvironment(w: World, p: Project, region: string, t: string, dir: string)
    ensures var call := PushCall(w, p, region, t, dir);
            ChildEnvironment(w.environ, call.env) == w.environ + BridgeEnvironment(w.location(p.fullname, t, region).info)
            && ReadBridgeConfig(ChildEnvironment(w.environ, call.env)) == Some(w.location(p.fullname, t, region).info)
  {
    BridgeConfigRoundTrip(w.environ, w.location(p.fullname, t, region).info);
  }
}
