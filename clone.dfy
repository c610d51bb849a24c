/** `repospanner_clone` of migrate.py: clone a repoSpanner repository into a directory
    through the bridge helper, then optionally point the clone's config at repoSpanner.
    primecache.py calls Pagure's own `_repospanner_clone` (not part of this model) for the
    same job; the model uses this operation for both. */
module Clone {
  import opened Outcomes
  import opened Loops
  import opened Process
  import opened Bridge
  import opened FileSystems
  import opened Registry

  /** The clone command as issued: no working directory, the helper's variables merged
      into the script's environment. */
  function CloneCall(w: World, fullname: string, repotype: string, region: string, target: string): (call: Invocation)
    ensures |call.cmd| == 6 && call.cmd[..4] == GitExt + ["clone"] && call.cmd[5] == target && call.cwd.None?
    ensures call.env == Some(w.environ + BridgeEnvironment(w.location(fullname, repotype, region).info))
  {
    var loc := w.location(fullname, repotype, region);
    Invocation(CloneCommand(w.binary, w.repoName(fullname, repotype), target), None,
               Some(w.environ + BridgeEnvironment(loc.info)))
  }

  /** The tree a successful clone with `set_config` leaves. */
  function ClonedTree(w: World, fullname: string, repotype: string, region: string): (tree: Tree)
  {
    var loc := w.location(fullname, repotype, region);
    Tree(w.remoteRefs(w.repoName(fullname, repotype)), CloneConfig(loc.url, loc.info))
  }

  lemma EmptyConfigMerge(config: map<string, string>)
    ensures map[] + config == config
  {
  }

  /** The effect of `repospanner_clone` on the filesystem. */
  function CloneResult(w: World, fullname: string, repotype: string, region: string,
                       setConfig: bool, target: string, e: Entries): (r: Run<Entries>)
    ensures r.outcome.Pass? <==> target !in e && w.exitCode(CloneCall(w, fullname, repotype, region, target)) == 0
    ensures r.outcome.Fail? ==> r.state == e
    ensures r.outcome.Pass? && setConfig ==> r.state == e[target := ClonedTree(w, fullname, repotype, region)]
    ensures r.outcome.Pass? && !setConfig ==>
      r.state == e[target := Tree(w.remoteRefs(w.repoName(fullname, repotype)), map[])]
  {
    var loc := w.location(fullname, repotype, region);
    var call := CloneCall(w, fullname, repotype, region, target);
    var c := Cloned(e, target, w.exitCode(call), w.remoteRefs(w.repoName(fullname, repotype)));
    if c.outcome.Pass? && setConfig then
      EmptyConfigMerge(CloneConfig(loc.url, loc.info));
      Run(Configured(c.state, target, CloneConfig(loc.url, loc.info)), Pass)
    else c
  }

  /** `repospanner_clone(project, repotype, set_config, target)`.  The region comes from
      the project record, the way Pagure's repo-info helper finds it, so the caller must
      have set it. */
  method RepospannerClone(w: World, project: Project, repotype: string, setConfig: bool,
                          target: string, fs: FileSystem)
    returns (call: Invocation, r: Outcome)
    requires project.repospannerRegion.Some?
    modifies fs
    ensures call == CloneCall(w, project.fullname, repotype, project.repospannerRegion.value, target)
    ensures Run(fs.entries, r) ==
      CloneResult(w, project.fullname, repotype, project.repospannerRegion.value, setConfig, target, old(fs.entries))
  {
    var loc := w.location(project.fullname, repotype, project.repospannerRegion.value);
    var reponame := w.repoName(project.fullname, repotype);
    var command := CloneCommand(w.binary, reponame, target);
    var environ := CopyAndUpdate(w.environ, BridgeEnvironment(loc.info));
    call := Invocation(command, None, Some(environ));
    r := fs.Clone(target, w.exitCode(call), w.remoteRefs(reponame));
    if r.Pass? && setConfig {
      fs.SetConfig(target, CloneConfig(loc.url, loc.info));
    }
  }
}
