/** What the scripts get from Pagure and from the host: the project records (whose
    repoSpanner region the scripts write), the database session, and every external
    answer (configuration, region lookups, repository listings, exit statuses) as an
    oracle. */
module Registry {
  import opened Outcomes
  import opened Process
  import opened Bridge

  /** `project.repospanner_repo_info(...)`: the repository URL and the region's settings. */
  datatype Location = Location(url: string, info: RegionInfo)

  /** The answers of everything outside the two scripts. */
  datatype World = World(
    environ: Env,                                    // os.environ of the script
    binary: string,                                  // pagure_config["REPOBRIDGE_BINARY"]
    pseudoFolder: string,                            // pagure_config["REPOSPANNER_PSEUDO_FOLDER"]
    repoTypes: seq<string>,                          // pagure.lib.REPOTYPES, in order
    location: (string, string, string) -> Location,  // repo info of (fullname, repotype, region)
    repoName: (string, string) -> string,            // _repospanner_repo_name of (fullname, repotype)
    localRefs: string -> seq<string>,                // shorthands of all references of a local repository
    remoteRefs: string -> set<string>,               // references of a repoSpanner repository, by name
    exitCode: Invocation -> int                      // exit status of each subprocess call
  )

  /** A Pagure project as the scripts see it.  Only the repoSpanner region is written. */
  class Project {
    const name: string
    const user: Option<string>         // the owner's user name, present exactly for a fork
    const namespace: Option<string>
    const fullname: string
    const path: string                 // the project's relative repository path
    const repoPaths: map<string, string>  // repotype -> local repository, for the types in use
    var repospannerRegion: Option<string>

    constructor (name: string, user: Option<string>, namespace: Option<string>, fullname: string,
                 path: string, repoPaths: map<string, string>, region: Option<string>)
      ensures this.name == name && this.user == user && this.namespace == namespace
      ensures this.fullname == fullname && this.path == path && this.repoPaths == repoPaths
      ensures repospannerRegion == region
    {
      this.name, this.user, this.namespace := name, user, namespace;
      this.fullname, this.path, this.repoPaths := fullname, path, repoPaths;
      repospannerRegion := region;
    }

    /** `project.repopath(repotype)`: None for a repository type not in use. */
    function RepoPath(repotype: string): (dir: Option<string>)
      ensures dir.Some? <==> repotype in repoPaths
    {
      if repotype in repoPaths then Some(repoPaths[repotype]) else None
    }
  }

  /** A database session: the names of the projects added to it, how many commits
      succeeded, and whether `session.remove()` ran. */
  class Session {
    var added: seq<string>
    var commits: nat
    var removed: bool

    constructor ()
      ensures added == [] && commits == 0 && !removed
    {
      added, commits, removed := [], 0, false;
    }
  }
}
