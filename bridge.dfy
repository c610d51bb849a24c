/** How migrate.py talks to repoSpanner's bridge helper: git runs the helper through its
    "ext::" transport; the helper reads its connection settings from the environment
    only, and takes the request's metadata as "--extra key value" arguments. */
module Bridge {
  import opened Outcomes
  import opened Process

  /** The push credential of a region: client certificate and key paths. */
  datatype PushCert = PushCert(cert: string, key: string)

  /** `regioninfo` as returned by pagure's repospanner_repo_info. */
  datatype RegionInfo = RegionInfo(url: string, ca: string, pushCert: PushCert)

  /** The arguments that make git accept the "ext::" transport. */
  const GitExt: seq<string> := ["git", "-c", "protocol.ext.allow=always"]

  /** The variables push, clone and pull all set for the helper. */
  function BridgeEnvironment(info: RegionInfo): (env: Env)
    ensures env.Keys == {"USER", "REPOBRIDGE_CONFIG", "REPOBRIDGE_BASEURL",
                         "REPOBRIDGE_CA", "REPOBRIDGE_CERT", "REPOBRIDGE_KEY"}
  {
    map[
      "USER" := "pagure",
      "REPOBRIDGE_CONFIG" := ":environment:",
      "REPOBRIDGE_BASEURL" := info.url,
      "REPOBRIDGE_CA" := info.ca,
      "REPOBRIDGE_CERT" := info.pushCert.cert,
      "REPOBRIDGE_KEY" := info.pushCert.key
    ]
  }

  /** What the helper reads back: in ":environment:" mode, its settings come from the
      REPOBRIDGE_* variables. */
  function ReadBridgeConfig(env: Env): (info: Option<RegionInfo>)
  {
    if "REPOBRIDGE_CONFIG" in env && env["REPOBRIDGE_CONFIG"] == ":environment:"
       && "REPOBRIDGE_BASEURL" in env && "REPOBRIDGE_CA" in env
       && "REPOBRIDGE_CERT" in env && "REPOBRIDGE_KEY" in env
    then Some(RegionInfo(env["REPOBRIDGE_BASEURL"], env["REPOBRIDGE_CA"],
                         PushCert(env["REPOBRIDGE_CERT"], env["REPOBRIDGE_KEY"])))
    else None
  }

  /** Whatever the script's own environment holds, the helper recovers exactly the
      region's settings and runs as user "pagure". */
  lemma BridgeConfigRoundTrip(environ: Env, info: RegionInfo)
    ensures ReadBridgeConfig(environ + BridgeEnvironment(info)) == Some(info)
    ensures (environ + BridgeEnvironment(info))["USER"] == "pagure"
  {
  }

  /** The value of `project_user`: the owner's name for a fork, "" otherwise. */
  function UserField(user: Option<string>): (field: string)
  {
    match user
    case Some(u) => u
    case None => ""
  }

  /** The value of `project_namespace`: `namespace or ""`. */
  function NamespaceField(namespace: Option<string>): (field: string)
  {
    match namespace
    case Some(n) => n
    case None => ""
  }

  /** `pushargs` of `_run_git_push`. */
  function ExtraArgs(repotype: string, name: string, user: Option<string>, namespace: Option<string>): (args: seq<string>)
    ensures |args| == 15
  {
    ["--extra", "username", "releng",
     "--extra", "repotype", repotype,
     "--extra", "project_name", name,
     "--extra", "project_user", UserField(user),
     "--extra", "project_namespace", NamespaceField(namespace)]
  }

  /** The metadata of a push, in the order `_run_git_push` lists it. */
  function ExtraPairs(repotype: string, name: string, user: Option<string>, namespace: Option<string>): (pairs: seq<(string, string)>)
  {
    [("username", "releng"), ("repotype", repotype), ("project_name", name),
     ("project_user", UserField(user)), ("project_namespace", NamespaceField(namespace))]
  }

  /** Each pair as "--extra key value". */
  function Triples(pairs: seq<(string, string)>): (args: seq<string>)
    ensures |args| == 3 * |pairs|
    decreases |pairs|
  {
    if pairs == [] then [] else ["--extra", pairs[0].0, pairs[0].1] + Triples(pairs[1..])
  }

  /** How the helper reads "--extra key value" triples back into pairs. */
  function ParseExtras(args: seq<string>): (pairs: Option<seq<(string, string)>>)
    decreases |args|
  {
    if args == [] then Some([])
    else if |args| < 3 || args[0] != "--extra" then None
    else
      match ParseExtras(args[3..])
      case None => None
      case Some(rest) => Some([(args[1], args[2])] + rest)
  }

  /** Any list of pairs survives the "--extra" encoding. */
  lemma {:induction false} TriplesRoundTrip(pairs: seq<(string, string)>)
    ensures ParseExtras(Triples(pairs)) == Some(pairs)
    decreases |pairs|
  {
    if pairs != [] {
      var a := Triples(pairs);
      assert a[3..] == Triples(pairs[1..]);
      TriplesRoundTrip(pairs[1..]);
      assert [(a[1], a[2])] + pairs[1..] == pairs;
    }
  }

  lemma TriplesCons(p: (string, string), rest: seq<(string, string)>)
    ensures Triples([p] + rest) == ["--extra", p.0, p.1] + Triples(rest)
  {
    assert ([p] + rest)[1..] == rest;
  }

  /** The arguments of a push are the metadata pairs written as triples. */
  lemma ExtraArgsAreTriples(repotype: string, name: string, user: Option<string>, namespace: Option<string>)
    ensures ExtraArgs(repotype, name, user, namespace) == Triples(ExtraPairs(repotype, name, user, namespace))
  {
    var us, ns := UserField(user), NamespaceField(namespace);
    TriplesCons(("project_namespace", ns), []);
    TriplesCons(("project_user", us), [("project_namespace", ns)]);
    TriplesCons(("project_name", name), [("project_user", us), ("project_namespace", ns)]);
    TriplesCons(("repotype", repotype), [("project_name", name), ("project_user", us), ("project_namespace", ns)]);
    TriplesCons(("username", "releng"),
                [("repotype", repotype), ("project_name", name), ("project_user", us), ("project_namespace", ns)]);
  }

  /** `pushargs` is five "--extra key value" triples: username=releng, the repository
      type, the project name, the fork owner (or "") and the namespace (or ""), and the
      helper reads exactly those pairs back. */
  lemma ExtraArgsRoundTrip(repotype: string, name: string, user: Option<string>, namespace: Option<string>)
    ensures ParseExtras(ExtraArgs(repotype, name, user, namespace)) == Some(ExtraPairs(repotype, name, user, namespace))
  {
    ExtraArgsAreTriples(repotype, name, user, namespace);
    TriplesRoundTrip(ExtraPairs(repotype, name, user, namespace));
  }

  /** `" ".join(words)`. */
  function JoinWords(words: seq<string>): (joined: string)
    decreases |words|
  {
    if words == [] then ""
    else if |words| == 1 then words[0]
    else words[0] + " " + JoinWords(words[1..])
  }

  /** `s.split(" ")`: cut at every single space, keeping empty pieces. */
  function SplitWords(s: string): (words: seq<string>)
    ensures |words| >= 1
    decreases |s|
  {
    if s == [] then [""]
    else
      var rest := SplitWords(s[1..]);
      if s[0] == ' ' then [""] + rest else [[s[0]] + rest[0]] + rest[1..]
  }

  predicate NoSpace(w: string)
  {
    ' ' !in w
  }

  lemma {:induction false} SplitWord(w: string)
    requires NoSpace(w)
    ensures SplitWords(w) == [w]
    decreases |w|
  {
    if w != [] {
      SplitWord(w[1..]);
      assert [w[0]] + w[1..] == w;
    }
  }

  lemma {:induction false} SplitWordThen(w: string, t: string)
    requires NoSpace(w)
    ensures SplitWords(w + " " + t) == [w] + SplitWords(t)
    decreases |w|
  {
    if w == [] {
      assert w + " " + t == [' '] + t;
      assert (w + " " + t)[1..] == t;
    } else {
      var s := w + " " + t;
      assert s[1..] == w[1..] + " " + t;
      SplitWordThen(w[1..], t);
      assert [w[0]] + w[1..] == w;
    }
  }

  /** Joining at spaces and splitting at spaces are inverse as long as no word holds a
      space (empty words included). */
  lemma {:induction false} SplitJoin(words: seq<string>)
    requires words != []
    requires forall i :: 0 <= i < |words| ==> NoSpace(words[i])
    ensures SplitWords(JoinWords(words)) == words
    decreases |words|
  {
    if |words| == 1 {
      SplitWord(words[0]);
    } else {
      SplitJoin(words[1..]);
      SplitWordThen(words[0], JoinWords(words[1..]));
      assert [words[0]] + words[1..] == words;
    }
  }

  /** The "ext::" remote of a push: the helper binary, the extras and the repository name,
      separated by single spaces. */
  function PushRemote(binary: string, extras: seq<string>, reponame: string): (remote: string)
  {
    "ext::" + binary + " " + JoinWords(extras) + " " + reponame
  }

  /** The push remote carries the helper, every extra and the repository name as separate
      words, when none of them holds a space. */
  lemma PushRemoteWords(binary: string, extras: seq<string>, reponame: string)
    requires extras != []
    requires NoSpace(binary) && NoSpace(reponame)
    requires forall i :: 0 <= i < |extras| ==> NoSpace(extras[i])
    ensures PushRemote(binary, extras, reponame)[..5] == "ext::"
    ensures SplitWords(PushRemote(binary, extras, reponame)[5..]) == [binary] + extras + [reponame]
  {
    var words := [binary] + extras + [reponame];
    assert JoinWords(extras + [reponame]) == JoinWords(extras) + " " + reponame by {
      JoinAppend(extras, reponame);
    }
    assert JoinWords(words) == binary + " " + JoinWords(extras + [reponame]) by {
      assert words[1..] == extras + [reponame];
    }
    assert PushRemote(binary, extras, reponame)[5..] == JoinWords(words);
    forall i | 0 <= i < |words| ensures NoSpace(words[i]) {
      if 0 < i < |words| - 1 { assert words[i] == extras[i - 1]; }
    }
    SplitJoin(words);
  }

  /** The helper reads back, from the words of the push remote, exactly the five extras
      `_run_git_push` meant to send, when no field holds a space. */
  lemma PushRemoteCarriesExtras(binary: string, reponame: string, repotype: string, name: string,
                                user: Option<string>, namespace: Option<string>)
    requires NoSpace(binary) && NoSpace(reponame) && NoSpace(repotype) && NoSpace(name)
    requires NoSpace(UserField(user)) && NoSpace(NamespaceField(namespace))
    ensures var words := SplitWords(PushRemote(binary, ExtraArgs(repotype, name, user, namespace), reponame)[5..]);
            && |words| == 17 && words[0] == binary && words[16] == reponame
            && ParseExtras(words[1..16]) == Some(ExtraPairs(repotype, name, user, namespace))
  {
    var extras := ExtraArgs(repotype, name, user, namespace);
    assert forall i :: 0 <= i < |extras| ==> NoSpace(extras[i]) by {
      assert NoSpace("--extra") && NoSpace("username") && NoSpace("releng") && NoSpace("repotype");
      assert NoSpace("project_name") && NoSpace("project_user") && NoSpace("project_namespace");
    }
    PushRemoteWords(binary, extras, reponame);
    assert ([binary] + extras + [reponame])[1..16] == extras;
    ExtraArgsRoundTrip(repotype, name, user, namespace);
  }

  lemma {:induction false} JoinAppend(words: seq<string>, last: string)
    requires words != []
    ensures JoinWords(words + [last]) == JoinWords(words) + " " + last
    decreases |words|
  {
    if |words| > 1 {
      assert (words + [last])[1..] == words[1..] + [last];
      JoinAppend(words[1..], last);
    }
  }

  /** The command of `_run_git_push`: one `git push` through the helper, followed by the
      shorthands of all references of the local repository, in listing order. */
  function PushCommand(binary: string, extras: seq<string>, reponame: string, refs: seq<string>): (cmd: seq<string>)
    ensures |cmd| == 5 + |refs|
    ensures cmd[..4] == GitExt + ["push"] && cmd[4] == PushRemote(binary, extras, reponame) && cmd[5..] == refs
  {
    GitExt + ["push", PushRemote(binary, extras, reponame)] + refs
  }

  /** The command of `repospanner_clone`: clone through the helper into `target`. */
  function CloneCommand(binary: string, reponame: string, target: string): (cmd: seq<string>)
    ensures |cmd| == 6 && cmd[..4] == GitExt + ["clone"] && cmd[5] == target
    ensures cmd[4] == "ext::" + binary + " " + reponame
  {
    GitExt + ["clone", "ext::" + binary + " " + reponame, target]
  }

  /** The clone remote names the helper and then the repository, as two words. */
  lemma CloneRemoteWords(binary: string, reponame: string, target: string)
    requires NoSpace(binary) && NoSpace(reponame)
    ensures CloneCommand(binary, reponame, target)[4][..5] == "ext::"
    ensures SplitWords(CloneCommand(binary, reponame, target)[4][5..]) == [binary, reponame]
  {
    assert CloneCommand(binary, reponame, target)[4][5..] == binary + " " + reponame;
    SplitWordThen(binary, reponame);
    SplitWord(reponame);
  }

  /** The git configuration `repospanner_clone` writes into a clone when asked to;
      pygit2 stores the boolean True as "true". */
  function CloneConfig(url: string, info: RegionInfo): (config: map<string, string>)
    ensures config.Keys == {"repospanner.url", "repospanner.cert", "repospanner.key",
                            "repospanner.cacert", "repospanner.enabled"}
    ensures config["repospanner.enabled"] == "true"
  {
    map[
      "repospanner.url" := url,
      "repospanner.cert" := info.pushCert.cert,
      "repospanner.key" := info.pushCert.key,
      "repospanner.cacert" := info.ca,
      "repospanner.enabled" := "true"
    ]
  }
}
