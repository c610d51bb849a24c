/** The paths of the Pagure pseudo cache: `os.path.join` and the names of a cache
    directory, its staging clone and its backup. */
module Paths {

  /** `posixpath.join(a, b)`: an absolute `b` replaces `a`; otherwise a "/" is inserted
      unless `a` is empty or already ends in one. */
  function Join(a: string, b: string): (r: string)
    ensures |b| > 0 && b[0] == '/' ==> r == b
  {
    if |b| > 0 && b[0] == '/' then b
    else if a == [] || a[|a| - 1] == '/' then a + b
    else a + "/" + b
  }

  /** `os.path.join(pseudopath, repotype, project.path)`. */
  function CacheDir(pseudoFolder: string, repotype: string, path: string): (dir: string)
  {
    Join(Join(pseudoFolder, repotype), path)
  }

  /** The staging clone of primecache.py. */
  function StagingDir(cacheDir: string): (s: string)
    ensures |s| == |cacheDir| + 11 && s[..|cacheDir|] == cacheDir
  {
    cacheDir + ".cacheprime"
  }

  /** The backup of the previous cache in primecache.py. */
  function BackupDir(cacheDir: string): (s: string)
    ensures |s| == |cacheDir| + 4 && s[..|cacheDir|] == cacheDir
  {
    cacheDir + ".old"
  }

  /** A cache directory, its staging clone and its backup are three different paths. */
  lemma SwapPathsDistinct(cacheDir: string)
    ensures StagingDir(cacheDir) != cacheDir && BackupDir(cacheDir) != cacheDir
    ensures StagingDir(cacheDir) != BackupDir(cacheDir)
  {
    assert |StagingDir(cacheDir)| != |BackupDir(cacheDir)|;
  }

  /** A single path component: not empty and without a "/". */
  predicate Component(s: string)
  {
    s != [] && '/' !in s
  }

  lemma {:induction false} SuffixCancel(a: string, b: string, t: string)
    requires a + t == b + t
    ensures a == b
  {
    assert |a| == |b|;
    assert a == (a + t)[..|a|];
    assert b == (b + t)[..|b|];
  }

  /** `Join(a, b)` always ends with `b`. */
  lemma JoinEndsWith(a: string, b: string)
    ensures |Join(a, b)| >= |b| && Join(a, b)[|Join(a, b)| - |b|..] == b
  {
    if !(|b| > 0 && b[0] == '/') && !(a == [] || a[|a| - 1] == '/') {
      assert Join(a, b) == (a + "/") + b;
    }
  }

  /** The separator `Join` puts after `a` before a relative component. */
  function Separator(a: string): (sep: string)
  {
    if a == [] || a[|a| - 1] == '/' then "" else "/"
  }

  lemma JoinComponent(a: string, r: string)
    requires Component(r)
    ensures Join(a, r) == a + Separator(a) + r
    ensures Join(a, r) != [] && Join(a, r)[|Join(a, r)| - 1] != '/'
  {
    var x := Join(a, r);
    JoinEndsWith(a, r);
    assert x[|x| - 1] == r[|r| - 1];
    assert r[|r| - 1] in r;
  }

  lemma JoinRelative(x: string, path: string)
    requires x != [] && x[|x| - 1] != '/'
    requires path == [] || path[0] != '/'
    ensures Join(x, path) == x + ("/" + path)
  {
  }

  /** Different repository types of a project get different cache directories, as long
      as each type is a single path component and the project's path is relative. */
  lemma CacheDirsDistinct(pseudoFolder: string, r1: string, r2: string, path: string)
    requires Component(r1) && Component(r2)
    requires path == [] || path[0] != '/'
    requires CacheDir(pseudoFolder, r1, path) == CacheDir(pseudoFolder, r2, path)
    ensures r1 == r2
  {
    var x1, x2 := Join(pseudoFolder, r1), Join(pseudoFolder, r2);
    JoinComponent(pseudoFolder, r1);
    JoinComponent(pseudoFolder, r2);
    JoinRelative(x1, path);
    JoinRelative(x2, path);
    SuffixCancel(x1, x2, "/" + path);
    var prefix := pseudoFolder + Separator(pseudoFolder);
    assert x1 == prefix + r1 && x2 == prefix + r2;
    assert r1 == x1[|prefix|..] && r2 == x2[|prefix|..];
  }
}
