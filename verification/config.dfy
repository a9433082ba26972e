/**
 * The catalog of servers read from `connex.yaml` (src/config.rs).
 * The catalog is built once by the loader and never changed afterwards,
 * so every entity is a value.
 */
module ConnexConfig {

  /** Rust's `u16`: the values 0 through 65535. */
  type U16 = x: int | 0 <= x < 0x1_0000

  /** One forwarded port pair: `local` on the operator's machine, `remote` on the server. */
  datatype Port = Port(local: U16, remote: U16)

  /** A service on a server. `ports` is ordered and may be empty. */
  datatype Application = Application(name: string, description: string, ports: seq<Port>)

  /** One remote host. Nothing makes application names unique. */
  datatype Server = Server(
    name: string,
    host: string,
    user: string,
    keyPath: string,
    applications: seq<Application>)

  /** The whole catalog. Nothing makes server names unique. */
  datatype Config = Config(servers: seq<Server>)

  /** Both ends of every port pair lie in 0..65535, and both extremes are representable. */
  lemma PortRange()
    ensures forall p: Port :: 0 <= p.local <= 65535 && 0 <= p.remote <= 65535
    ensures exists p: Port :: p.local == 65535 && p.remote == 0
    ensures exists p: Port :: p.local == 0 && p.remote == 65535
  {
    var hi := Port(65535, 0);
    assert hi.local == 65535 && hi.remote == 0;
    var lo := Port(0, 65535);
    assert lo.local == 0 && lo.remote == 65535;
  }

  /** An application with no port pair at all is a valid catalog entry. */
  lemma EmptyPortsAllowed(name: string, description: string)
    ensures exists a: Application :: a.name == name && a.description == description && a.ports == []
  {
    var a := Application(name, description, []);
    assert a.name == name && a.description == description && a.ports == [];
  }

  /** Two servers of one catalog may carry the same name. */
  lemma DuplicateServerNamesAllowed(s: Server, t: Server)
    requires s.name == t.name && s != t
    ensures exists c: Config :: c.servers == [s, t] && c.servers[0] != c.servers[1]
                                 && c.servers[0].name == c.servers[1].name
  {
    var c := Config([s, t]);
    assert c.servers[0] == s && c.servers[1] == t;
  }

  /** Two applications of one server may carry the same name. */
  lemma DuplicateApplicationNamesAllowed(s: Server, a: Application, b: Application)
    requires a.name == b.name
    ensures exists t: Server :: t.name == s.name && |t.applications| == 2
                                && t.applications[0] == a && t.applications[1] == b
  {
    var t := s.(applications := [a, b]);
    assert t.applications[0] == a && t.applications[1] == b;
  }
}
