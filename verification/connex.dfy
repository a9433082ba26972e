/**
 * The `open` and `forward` subcommands of connex (src/main.rs): finding a
 * server in the catalog by name, building the ssh command line for it, and
 * turning the shell's exit status into a result.
 *
 * Argument parsing, printing and process spawning are outside the model:
 * the parsed request is a value, and the process runner is a parameter
 * `exec` that maps the command line handed to `sh -c` to its exit status.
 */
module Connex {
  import opened Wrappers
  import opened ConnexConfig

  /** The parsed command line. `keyOverride` is the `--key-path` option. */
  datatype Request =
    | Open(name: string, keyOverride: Option<string>)
    | Forward(host: string)

  /** What the process runner reports: whether the status is a success, and how it prints. */
  datatype ExitStatus = ExitStatus(success: bool, display: string)

  /** What one run of the program does with a catalog it could load. */
  datatype Outcome =
    | Connected(command: string, result: Result<(), string>)  // a server matched and ssh was run
    | ServerNotFound                                           // no server of that name: nothing run
    | Forwarding(host: string)                                 // `forward` only reports the host

  // ---------------------------------------------------------------------------
  // Server lookup

  /** Index `i` holds the first server named `name`. */
  ghost predicate IsFirstMatch(servers: seq<Server>, name: string, i: int)
  {
    0 <= i < |servers| && servers[i].name == name
    && forall j :: 0 <= j < i ==> servers[j].name != name
  }

  /** The position of the first server whose name equals `name` exactly, if any. */
  function FindServerIndex(servers: seq<Server>, name: string): (r: Option<nat>)
    ensures r.Some? ==> IsFirstMatch(servers, name, r.value)
    ensures r.None? <==> forall j :: 0 <= j < |servers| ==> servers[j].name != name
  {
    if |servers| == 0 then None
    else if servers[0].name == name then Some(0)
    else match FindServerIndex(servers[1..], name)
      case None => None
      case Some(k) =>
        assert servers[1..][k] == servers[k + 1];
        Some(k + 1)
  }

  /** `config.servers.iter().find(|s| s.name == name)`. */
  function FindServer(cfg: Config, name: string): (r: Option<Server>)
    ensures r.Some? ==> r.value.name == name && r.value in cfg.servers
    ensures r.Some? ==> exists i :: IsFirstMatch(cfg.servers, name, i) && cfg.servers[i] == r.value
    ensures r.None? <==> forall s :: s in cfg.servers ==> s.name != name
  {
    match FindServerIndex(cfg.servers, name)
    case None => None
    case Some(i) => Some(cfg.servers[i])
  }

  /** There is at most one first match. */
  lemma FirstMatchUnique(servers: seq<Server>, name: string, i: int, j: int)
    requires IsFirstMatch(servers, name, i) && IsFirstMatch(servers, name, j)
    ensures i == j
  {
  }

  /** The lookup returns exactly the server at the lowest index whose name matches. */
  lemma FindServerIsFirstMatch(cfg: Config, name: string, i: int)
    requires 0 <= i < |cfg.servers|
    ensures FindServer(cfg, name) == Some(cfg.servers[i]) <== IsFirstMatch(cfg.servers, name, i)
    ensures FindServerIndex(cfg.servers, name) == Some(i) <==> IsFirstMatch(cfg.servers, name, i)
  {
    if IsFirstMatch(cfg.servers, name, i) {
      var r := FindServerIndex(cfg.servers, name);
      assert r.Some?;
      FirstMatchUnique(cfg.servers, name, r.value, i);
    }
  }

  /** Of two servers with the same name, the earlier one wins and the later one is never returned by index. */
  lemma EarlierDuplicateWins(cfg: Config, name: string, i: int, j: int)
    requires 0 <= i < j < |cfg.servers|
    requires cfg.servers[i].name == name && cfg.servers[j].name == name
    ensures FindServerIndex(cfg.servers, name).Some?
    ensures FindServerIndex(cfg.servers, name).value <= i
    ensures FindServerIndex(cfg.servers, name) != Some(j)
  {
  }

  // ---------------------------------------------------------------------------
  // The ssh command line

  /** The prefix of every command: `ssh -i `. */
  const SshPrefix: string := "ssh -i "

  /**
   * `format!("ssh -i {} {}@{}", key_path, user, host)`: the key path, user
   * and host are spliced in verbatim, with no quoting or escaping.
   */
  function SshCommandLine(keyPath: string, user: string, host: string): (cmd: string)
    ensures |cmd| == |SshPrefix| + |keyPath| + 1 + |user| + 1 + |host|
    ensures cmd[..7] == SshPrefix
    ensures cmd[7..7 + |keyPath|] == keyPath
    ensures cmd[7 + |keyPath|] == ' '
    ensures cmd[8 + |keyPath|..8 + |keyPath| + |user|] == user
    ensures cmd[8 + |keyPath| + |user|] == '@'
    ensures cmd[|cmd| - |host|..] == host
  {
    SshPrefix + keyPath + " " + user + "@" + host
  }

  /** The command line as one concatenation: prefix, key path, blank, user, `@`, host. */
  lemma SshCommandLineParts(keyPath: string, user: string, host: string)
    ensures SshCommandLine(keyPath, user, host) == SshPrefix + (keyPath + [' '] + (user + ['@'] + host))
  {
  }

  /** `connect_to_server`'s command: always the server's own configured key path, user and host. */
  function SshCommand(server: Server): (cmd: string)
    ensures |cmd| == 9 + |server.keyPath| + |server.user| + |server.host|
    ensures cmd[..7] == SshPrefix
    ensures cmd[7..7 + |server.keyPath|] == server.keyPath
    ensures cmd[8 + |server.keyPath|..8 + |server.keyPath| + |server.user|] == server.user
    ensures cmd[|cmd| - |server.host|..] == server.host
  {
    SshCommandLine(server.keyPath, server.user, server.host)
  }

  /** The three fields of a server that reach the command line. */
  datatype SshTarget = SshTarget(keyPath: string, user: string, host: string)

  /** Splits `s` at the first occurrence of `sep`. */
  function SplitFirst(s: string, sep: char): (r: Option<(string, string)>)
    ensures r.None? <==> sep !in s
    ensures r.Some? ==> s == r.value.0 + [sep] + r.value.1 && sep !in r.value.0
  {
    if |s| == 0 then None
    else if s[0] == sep then Some(([], s[1..]))
    else match SplitFirst(s[1..], sep)
      case None => None
      case Some((a, b)) =>
        assert s == [s[0]] + s[1..];
        Some(([s[0]] + a, b))
  }

  /** Splitting `a + [sep] + b` at `sep` gives back `a` and `b` when `a` holds no `sep`. */
  lemma {:induction false} SplitFirstOfJoin(a: string, sep: char, b: string)
    requires sep !in a
    ensures SplitFirst(a + [sep] + b, sep) == Some((a, b))
  {
    var s := a + [sep] + b;
    if a == [] {
      assert s[0] == sep && s[1..] == b;
    } else {
      assert s[0] == a[0] != sep;
      assert s[1..] == a[1..] + [sep] + b;
      SplitFirstOfJoin(a[1..], sep, b);
      assert [s[0]] + a[1..] == a;
    }
  }

  /**
   * Reads a command line back into its key path, user and host: the key path
   * runs to the first blank after the prefix, the user to the next `@`.
   */
  function ParseSshCommand(cmd: string): (r: Option<SshTarget>)
    ensures r.Some? ==> ' ' !in r.value.keyPath && '@' !in r.value.user
    ensures r.Some? ==> cmd == SshCommandLine(r.value.keyPath, r.value.user, r.value.host)
  {
    if |cmd| < 7 || cmd[..7] != SshPrefix then None
    else match SplitFirst(cmd[7..], ' ')
      case None => None
      case Some((key, rest)) =>
        (match SplitFirst(rest, '@')
         case None => None
         case Some((user, host)) =>
           assert cmd[7..] == key + [' '] + (user + ['@'] + host);
           assert cmd == SshPrefix + cmd[7..];
           SshCommandLineParts(key, user, host);
           Some(SshTarget(key, user, host)))
  }

  /**
   * When the key path has no blank and the user no `@`, the command line
   * determines the three fields it was built from.
   */
  lemma SshCommandRoundTrip(server: Server)
    requires ' ' !in server.keyPath && '@' !in server.user
    ensures ParseSshCommand(SshCommand(server))
            == Some(SshTarget(server.keyPath, server.user, server.host))
  {
    var cmd := SshCommand(server);
    SshCommandLineParts(server.keyPath, server.user, server.host);
    assert cmd[7..] == server.keyPath + [' '] + (server.user + ['@'] + server.host);
    SplitFirstOfJoin(server.keyPath, ' ', server.user + ['@'] + server.host);
    SplitFirstOfJoin(server.user, '@', server.host);
  }

  /**
   * Because nothing is quoted, a blank inside a key path is indistinguishable
   * from the separator: two different servers can yield the same command.
   */
  lemma SshCommandNotInjective()
    ensures exists s: Server, t: Server ::
              s.keyPath != t.keyPath && SshCommand(s) == SshCommand(t)
  {
    var s := Server("prod", "h", "u", "a b", []);
    var t := Server("prod", "h", "b u", "a", []);
    assert SshCommand(s) == "ssh -i a b u@h";
    assert SshCommand(t) == "ssh -i a b u@h";
  }

  // ---------------------------------------------------------------------------
  // Running the command

  /** Maps the exit status of `sh -c <cmd>` to `Ok(())` or an error describing the status. */
  function StatusResult(status: ExitStatus): (r: Result<(), string>)
    ensures r.Ok? <==> status.success
    ensures r.Err? ==> r.error == "SSH command failed with status: " + status.display
  {
    if status.success then Ok(())
    else Err("SSH command failed with status: " + status.display)
  }

  /** `connect_to_server`: runs the server's ssh command and reports how it ended. */
  function ConnectToServer(server: Server, exec: string -> ExitStatus): (r: Result<(), string>)
    ensures r.Ok? <==> exec(SshCommand(server)).success
    ensures r.Err? ==> r.error == "SSH command failed with status: " + exec(SshCommand(server)).display
  {
    StatusResult(exec(SshCommand(server)))
  }

  /** The `match args.command` of `main`, once the catalog has been loaded. */
  function Run(cfg: Config, req: Request, exec: string -> ExitStatus): (o: Outcome)
    ensures req.Forward? ==> o == Forwarding(req.host)
    ensures req.Open? ==> !o.Forwarding?
    ensures req.Open? ==> (o.ServerNotFound? <==> forall s :: s in cfg.servers ==> s.name != req.name)
    ensures o.Connected? ==>
              req.Open? && exists i :: IsFirstMatch(cfg.servers, req.name, i)
                                      && o.command == SshCommand(cfg.servers[i])
    ensures o.Connected? ==> (o.result.Ok? <==> exec(o.command).success)
  {
    match req
    case Open(name, _) =>
      (match FindServer(cfg, name)
       case None => ServerNotFound
       case Some(server) => Connected(SshCommand(server), ConnectToServer(server, exec)))
    case Forward(host) => Forwarding(host)
  }

  /** The `--key-path` option never changes what happens. */
  lemma KeyOverrideIgnored(cfg: Config, name: string, k1: Option<string>, k2: Option<string>,
                           exec: string -> ExitStatus)
    ensures Run(cfg, Open(name, k1), exec) == Run(cfg, Open(name, k2), exec)
    ensures Run(cfg, Open(name, k1), exec).Connected? <==> Run(cfg, Open(name, k2), exec).Connected?
    ensures Run(cfg, Open(name, k1), exec).Connected? ==>
              Run(cfg, Open(name, k1), exec).command == Run(cfg, Open(name, k2), exec).command
  {
  }

  /** The key path in the command is always the one configured for the matched server. */
  lemma CommandUsesConfiguredKey(cfg: Config, name: string, key: Option<string>,
                                 exec: string -> ExitStatus)
    requires Run(cfg, Open(name, key), exec).Connected?
    ensures FindServer(cfg, name).Some?
    ensures var cmd := Run(cfg, Open(name, key), exec).command;
            var k := FindServer(cfg, name).value.keyPath;
            |cmd| >= 7 + |k| && cmd[7..7 + |k|] == k
  {
  }

  /** `forward` reads neither the catalog nor the process runner. */
  lemma ForwardIgnoresCatalog(c1: Config, c2: Config, host: string,
                              e1: string -> ExitStatus, e2: string -> ExitStatus)
    ensures Run(c1, Forward(host), e1) == Run(c2, Forward(host), e2) == Forwarding(host)
  {
  }

  /** A request naming a server that is absent runs nothing. */
  lemma AbsentServerRunsNothing(cfg: Config, name: string, key: Option<string>,
                                exec: string -> ExitStatus)
    requires forall s :: s in cfg.servers ==> s.name != name
    ensures Run(cfg, Open(name, key), exec) == ServerNotFound
  {
  }

  /** Of two servers sharing a name, the lookup returns the first, and `open` contacts it. */
  lemma DuplicateNameLookup(s: Server, t: Server, key: Option<string>, exec: string -> ExitStatus)
    requires s.name == t.name
    ensures FindServerIndex([s, t], s.name) == Some(0)
    ensures FindServer(Config([s, t]), s.name) == Some(s)
    ensures Run(Config([s, t]), Open(s.name, key), exec).command == SshCommand(s)
  {
    assert IsFirstMatch([s, t], s.name, 0);
    FindServerIsFirstMatch(Config([s, t]), s.name, 0);
  }

  // ---------------------------------------------------------------------------
  // Worked examples

  /** A catalog entry used by the examples below. */
  const Prod: Server := Server("prod", "db.example.com", "alice", "/home/alice/.ssh/id_rsa", [])

  /** A `--key-path` value is dropped: the configured key is used. */
  lemma OverrideExample(exec: string -> ExitStatus)
    ensures Run(Config([Prod]), Open("prod", Some("/tmp/other_key")), exec).Connected?
    ensures Run(Config([Prod]), Open("prod", Some("/tmp/other_key")), exec).command
            == "ssh -i " + "/home/alice/.ssh/id_rsa" + " " + "alice" + "@" + "db.example.com"
  {
    assert FindServerIndex([Prod], "prod") == Some(0);
  }

  /** Of two servers named `prod`, the first one is contacted. */
  lemma DuplicateExample(exec: string -> ExitStatus)
    ensures Run(Config([Prod, Prod.(host := "backup.example.com")]), Open("prod", None), exec).command
            == "ssh -i " + "/home/alice/.ssh/id_rsa" + " " + "alice" + "@" + "db.example.com"
  {
    assert FindServerIndex([Prod, Prod.(host := "backup.example.com")], "prod") == Some(0);
  }
}
