/** `runcmd`, which both scripts define identically: run a command in a working
    directory, merging extra environment variables into a copy of the script's own
    environment, and raise on a non-zero exit status unless the caller tolerates it. */
module Process {
  import opened Outcomes

  /** A process environment: variable name to value. */
  type Env = map<string, string>

  /** One subprocess call as issued: the argument list, the working directory (None:
      the script's own) and the `env` argument (None: the child inherits the script's
      environment). */
  datatype Invocation = Invocation(cmd: seq<string>, cwd: Option<string>, env: Option<Env>)

  /** The environment the child starts with, as subprocess defines it: the parent's
      when `env` is None, exactly `env` otherwise. */
  function ChildEnvironment(environ: Env, passed: Option<Env>): (env: Env)
  {
    match passed
    case None => environ
    case Some(e) => e
  }

  /** `newenv = base.copy(); newenv.update(extra)`: every key of `extra` is set to its
      value there, every other key of `base` keeps its value, and nothing else is added. */
  method CopyAndUpdate(base: Env, extra: Env) returns (r: Env)
    ensures r.Keys == base.Keys + extra.Keys
    ensures forall k :: k in extra ==> r[k] == extra[k]
    ensures forall k :: k in base && k !in extra ==> r[k] == base[k]
    ensures r == base + extra
  {
    r := base;
    var pending := extra.Keys;
    while pending != {}
      invariant pending <= extra.Keys
      invariant r.Keys == base.Keys + (extra.Keys - pending)
      invariant forall k :: k in extra && k !in pending ==> r[k] == extra[k]
      invariant forall k :: k in base && (k !in extra || k in pending) ==> r[k] == base[k]
      decreases pending
    {
      var k :| k in pending;
      r := r[k := extra[k]];
      pending := pending - {k};
    }
  }

  /** Python's truth value of a dictionary argument: None and {} are false. */
  predicate Truthy(env: Option<Env>)
  {
    env.Some? && env.value != map[]
  }

  /** `runcmd(workdir, cmd, env, mayfail)`.  The exit status of the command is
      `exitCode(call)`, an oracle for the process itself.  With `mayfail` the call is
      `subprocess.call` and a non-zero status is returned, not raised. */
  method RunCmd(environ: Env, workdir: string, cmd: seq<string>, env: Option<Env>,
                mayfail: bool, exitCode: Invocation -> int)
    returns (call: Invocation, result: Outcome)
    ensures call.cmd == cmd && call.cwd == Some(workdir)
    ensures !Truthy(env) ==> call.env == env
    ensures Truthy(env) ==> call.env.Some? && ChildEnvironment(environ, call.env) == environ + env.value
    ensures result.Fail? <==> exitCode(call) != 0 && !mayfail
    ensures result.Fail? ==> result.error == CalledProcessError(exitCode(call))
  {
    var passed := env;
    if Truthy(env) {
      var newenv := CopyAndUpdate(environ, env.value);
      passed := Some(newenv);
    }
    call := Invocation(cmd, Some(workdir), passed);
    var status := exitCode(call);
    if status != 0 && !mayfail {
      result := Fail(CalledProcessError(status));
    } else {
      result := Pass;
    }
  }

  /** With a non-empty `env`, the child sees every variable of `env` and every other
      variable of the script's environment unchanged. */
  lemma MergedEnvironment(environ: Env, env: Env, k: string)
    requires k in environ || k in env
    ensures k in environ + env
    ensures (environ + env)[k] == if k in env then env[k] else environ[k]
  {
  }

  /** An empty dictionary is false in Python, so `runcmd` passes it through unmerged and
      the child starts with an empty environment rather than the script's. */
  lemma EmptyEnvIsNotMerged(environ: Env)
    ensures !Truthy(Some(map[]))
    ensures ChildEnvironment(environ, Some(map[])) == map[]
    ensures ChildEnvironment(environ, None) == environ
  {
  }
}
