/** The part of the filesystem the scripts touch, at the granularity of whole
    repository directories: a map from a directory's path to the clone it holds. */
module FileSystems {
  import opened Outcomes
  import opened Loops

  /** A git working copy: its reference names and the entries of its git config. */
  datatype Tree = Tree(refs: set<string>, config: map<string, string>)

  type Entries = map<string, Tree>

  /** `os.rename(src, dst)`: a missing source raises; so does an existing target, since
      every directory here is a non-empty clone. */
  function Renamed(e: Entries, src: string, dst: string): (r: Run<Entries>)
    ensures r.outcome.Pass? <==> src in e && dst !in e
    ensures r.outcome.Fail? ==> r.state == e
    ensures r.outcome.Pass? ==> r.state.Keys == e.Keys - {src} + {dst} && r.state[dst] == e[src]
    ensures forall q :: q in e && q != src && q != dst ==> r.state[q] == e[q]
  {
    if src !in e then Run(e, Fail(FileNotFound(src)))
    else if dst in e then Run(e, Fail(DirectoryNotEmpty(dst)))
    else Run((e - {src})[dst := e[src]], Pass)
  }

  /** `shutil.rmtree(path)` with its default error handling: a missing path raises. */
  function RemovedTree(e: Entries, path: string): (r: Run<Entries>)
    ensures r.outcome.Pass? <==> path in e
    ensures r.state == e - {path}
  {
    if path !in e then Run(e, Fail(FileNotFound(path))) else Run(e - {path}, Pass)
  }

  /** `git clone` into `target` with process exit status `code`: git refuses an existing
      target (status 128); a failed clone leaves nothing behind; a successful one holds
      the remote's references and an empty config. */
  function Cloned(e: Entries, target: string, code: int, refs: set<string>): (r: Run<Entries>)
    ensures r.outcome.Pass? <==> target !in e && code == 0
    ensures r.outcome.Fail? ==> r.state == e
    ensures r.outcome.Pass? ==> r.state == e[target := Tree(refs, map[])]
  {
    if target in e then Run(e, Fail(CalledProcessError(128)))
    else if code != 0 then Run(e, Fail(CalledProcessError(code)))
    else Run(e[target := Tree(refs, map[])], Pass)
  }

  /** `git pull` in `dir` with exit status `code`: on success the remote's references
      are added; a failed pull changes nothing. */
  function Pulled(e: Entries, dir: string, code: int, refs: set<string>): (r: Entries)
    ensures r.Keys == e.Keys
    ensures forall p :: p in e ==> e[p].refs <= r[p].refs && r[p].config == e[p].config
    ensures forall p :: p in e && p != dir ==> r[p] == e[p]
    ensures dir in e ==> r[dir].refs == if code == 0 then e[dir].refs + refs else e[dir].refs
  {
    if dir in e && code == 0 then e[dir := e[dir].(refs := e[dir].refs + refs)] else e
  }

  /** `repo.config[key] = value` for every entry of `config`. */
  function Configured(e: Entries, dir: string, config: map<string, string>): (r: Entries)
    ensures r.Keys == e.Keys
    ensures forall p :: p in e ==> r[p].refs == e[p].refs
    ensures dir in e ==> r[dir].config == e[dir].config + config
    ensures forall p :: p in e && p != dir ==> r[p] == e[p]
  {
    if dir in e then e[dir := e[dir].(config := e[dir].config + config)] else e
  }

  /** The filesystem of the host, as a mutable map. */
  class FileSystem {
    var entries: Entries

    constructor (initial: Entries)
      ensures entries == initial
    {
      entries := initial;
    }

    /** `os.path.exists(path)`. */
    predicate Exists(path: string)
      reads this
    {
      path in entries
    }

    method Rename(src: string, dst: string) returns (r: Outcome)
      modifies this
      ensures Run(entries, r) == Renamed(old(entries), src, dst)
    {
      if src !in entries {
        r := Fail(FileNotFound(src));
      } else if dst in entries {
        r := Fail(DirectoryNotEmpty(dst));
      } else {
        entries := (entries - {src})[dst := entries[src]];
        r := Pass;
      }
    }

    method RmTree(path: string) returns (r: Outcome)
      modifies this
      ensures Run(entries, r) == RemovedTree(old(entries), path)
    {
      if path !in entries {
        r := Fail(FileNotFound(path));
      } else {
        entries := entries - {path};
        r := Pass;
      }
    }

    method Clone(target: string, code: int, refs: set<string>) returns (r: Outcome)
      modifies this
      ensures Run(entries, r) == Cloned(old(entries), target, code, refs)
    {
      if target in entries {
        r := Fail(CalledProcessError(128));
      } else if code != 0 {
        r := Fail(CalledProcessError(code));
      } else {
        entries := entries[target := Tree(refs, map[])];
        r := Pass;
      }
    }

    method Pull(dir: string, code: int, refs: set<string>)
      modifies this
      ensures entries == Pulled(old(entries), dir, code, refs)
    {
      if dir in entries && code == 0 {
        entries := entries[dir := entries[dir].(refs := entries[dir].refs + refs)];
      }
    }

    method SetConfig(dir: string, config: map<string, string>)
      modifies this
      ensures entries == Configured(old(entries), dir, config)
    {
      if dir in entries {
        entries := entries[dir := entries[dir].(config := entries[dir].config + config)];
      }
    }
  }
}
