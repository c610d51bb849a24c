/** Values shared by every part of the model: optional values, the exceptions the
    two scripts can raise, and the outcome of a step that may raise one. */
module Outcomes {

  datatype Option<+T> = None | Some(value: T)

  /** The exceptions that end a step of either script. */
  datatype Error =
    | CalledProcessError(code: int)     // subprocess.check_call saw a non-zero exit status
    | FileNotFound(path: string)        // os.rename or shutil.rmtree of a missing path
    | DirectoryNotEmpty(path: string)   // os.rename onto a directory that already exists
    | OldCacheExists(path: string)      // primecache refuses to overwrite a left-over "<cache>.old"
    | CreationFailed                    // creating the repositories in repoSpanner raised
    | CommitFailed                      // the database session refused the commit
    | ProjectNotFound                   // the project could not be looked up again by name
    | SystemExit(message: string)       // the script ends with a non-zero exit status

  /** Either the step returned normally, or it raised `error`. */
  datatype Outcome = Pass | Fail(error: Error)
}
