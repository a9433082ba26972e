# connex: server lookup and ssh command construction

connex is a command-line tool that keeps a catalog of SSH servers in
`~/connex.yaml`. Each server has a name, host, user and private-key path, plus
a list of applications, and each application lists port pairs. The `open --name <server>`
subcommand finds the server and runs `ssh -i <key> <user>@<host>` through
`sh -c`. The `forward <host>` subcommand only prints a message.

The model has three modules:

- `ConnexConfig` (`config.dfy`): the catalog datatypes `Port`, `Application`,
  `Server` and `Config`. Port numbers are the subset type `U16` (0..65535).
  Lists are ordered sequences, with no uniqueness constraint on names and no
  minimum length.
- `Connex` (`connex.dfy`): the parsed request `Request = Open(name,
  keyOverride) | Forward(host)`, the first-match lookup `FindServer` and the
  command line `SshCommand`. It also holds the mapping from exit status to
  `Result` (`StatusResult`, `ConnectToServer`) and the dispatch of `main` as a
  function `Run(cfg, req, exec)` returning an `Outcome`. The process runner
  is the parameter `exec`, which maps the command line given to `sh -c` to an
  `ExitStatus(success, display)`.
- `Wrappers` (`wrappers.dfy`): `Option` and `Result`.

The datatypes and the source lines they model:

- `ConnexConfig.Port`, `Application`, `Server`, `Config`: the structs of src/config.rs:6-31.
- `Connex.Request`: the `Commands` enum of src/main.rs:17-34, as clap leaves it after parsing.
- `Connex.ExitStatus`: the `status` of the `sh -c` run at src/main.rs:73-77, reduced to whether it succeeded and how it prints.
- `Connex.Outcome`: which branch of `main`'s `match args.command` was taken (src/main.rs:47-62), and for a connection the command line and the result of `connect_to_server`.

`exec` stands for one fixed response per command line. Two real runs of the same
command could end differently. So `KeyOverrideIgnored` states separately that the
command line itself never depends on `--key-path`.

Behaviour of the code worth knowing:

- The `--key-path` option of `open` is bound at src/main.rs:48 and never read
  afterwards. The command always uses the matched server's configured
  `key_path` (src/main.rs:68). See `KeyOverrideIgnored`,
  `CommandUsesConfiguredKey` and `OverrideExample`.
- `forward` only prints its argument (src/main.rs:59-61). It looks up no server
  or application and runs no command. See `ForwardIgnoresCatalog`.
- The ssh command is one string, with the key path, user and host spliced in
  unquoted and handed to `sh -c` (src/main.rs:66-75).
  `SshCommandRoundTrip` shows the fields can be read back when the key path has
  no blank and the user has no `@`. `SshCommandNotInjective` shows two
  different servers that give the same command.

## Model

| member | source | states |
|---|---|---|
| `ConnexConfig.PortRange` | src/config.rs:6-10 | both `local` and `remote` of every port pair lie in 0..65535, and each extreme is attainable |
| `ConnexConfig.EmptyPortsAllowed` | src/config.rs:12-17 | an application whose `ports` list is empty is a valid catalog entry |
| `ConnexConfig.DuplicateServerNamesAllowed` | src/config.rs:19-31 | a catalog may hold two different servers with the same name |
| `ConnexConfig.DuplicateApplicationNamesAllowed` | src/config.rs:12-26 | a server may hold two applications with the same name, in the given order |
| `Connex.FindServerIndex` | src/main.rs:49 | returns the lowest index whose server name equals the requested name exactly; returns none iff no server has that name |
| `Connex.FindServer` | src/main.rs:49 | a returned server has the requested name, is in the catalog and sits at the first matching index; none iff no catalog server has that name |
| `Connex.FirstMatchUnique` | src/main.rs:49 | the first matching index is unique, so the lookup is deterministic |
| `Connex.FindServerIsFirstMatch` | src/main.rs:49 | the lookup yields index `i` iff `i` is the first match, and then yields the server at `i` |
| `Connex.EarlierDuplicateWins` | src/main.rs:49 | of two servers with the same name, the lookup never returns the later one and returns an index no greater than the earlier one |
| `Connex.SshCommandLine` | src/main.rs:66-71 | the command is `ssh -i `, then the key path, a blank, the user, `@` and the host, each in its exact position and of exact total length |
| `Connex.SshCommand` | src/main.rs:65-71 | the command of a server carries that server's own configured key path, user and host verbatim in their positions |
| `Connex.ParseSshCommand` | src/main.rs:66-71 | reading back a command gives a key path with no blank and a user with no `@` that rebuild exactly the same command |
| `Connex.SshCommandRoundTrip` | src/main.rs:66-71 | when the key path has no blank and the user no `@`, reading the command back yields exactly the server's key path, user and host |
| `Connex.SshCommandNotInjective` | src/main.rs:66-75 | fields are not quoted: two servers with different key paths can produce the same shell command |
| `Connex.StatusResult` | src/main.rs:79-83 | `Ok` iff the exit status is a success; otherwise an error reading `SSH command failed with status: ` followed by the status |
| `Connex.ConnectToServer` | src/main.rs:65-84 | the runner is given exactly the server's ssh command, and the result is `Ok` iff that run succeeds, else the status message |
| `Connex.Run` | src/main.rs:47-62 | `forward` only reports its host; `open` runs nothing iff no server has the name, otherwise runs the first matching server's command and reports `Ok` iff the run succeeded |
| `Connex.KeyOverrideIgnored` | src/main.rs:48-51 | two `open` requests that differ only in `--key-path` have identical outcomes |
| `Connex.CommandUsesConfiguredKey` | src/main.rs:48-68 | when `open` connects, the key in the command is the matched server's configured key path |
| `Connex.ForwardIgnoresCatalog` | src/main.rs:59-61 | `forward` has the same outcome whatever the catalog and runner: no lookup and no command |
| `Connex.AbsentServerRunsNothing` | src/main.rs:49-57 | an `open` naming a server absent from the catalog builds and runs no command |
| `Connex.DuplicateNameLookup` | src/main.rs:49-51 | for any two servers sharing a name, the lookup returns the first, and `open` builds that server's command |
| `Connex.OverrideExample` | src/main.rs:48-71 | with `--key-path /tmp/other_key`, the `prod` server is contacted with its configured `/home/alice/.ssh/id_rsa` |
| `Connex.DuplicateExample` | src/main.rs:49-71 | with two servers named `prod`, the command goes to the first one's host |

## Left out

- `Config::load` (src/config.rs:35-42): it finds the home directory and reads `connex.yaml` with a YAML library. That is file I/O and foreign code, and its failure branch in `main` only prints. When the load fails, `main` prints a message and returns before either subcommand runs, `forward` included (src/main.rs:37-43). The model starts from a loaded `Config`, so `Run` and its lemmas speak only of runs whose catalog loaded.
- Command-line parsing with clap (src/main.rs:8-34, 45): it is an external library. The parsed request is the datatype `Request`.
- Process spawning (src/main.rs:73-77): it is an effect outside the model. The runner is the parameter `exec`, and `ExitStatus.display` stands for how the status prints. The `.expect` panic when `sh` cannot be started is not modelled.
- All printing (src/main.rs:40, 50, 52-53, 56, 60): it is user-facing output. `Outcome` records which branch was taken instead.
- String comparison: Rust compares `String`s byte by byte, while the model compares sequences of characters. The two agree on exact equality.
