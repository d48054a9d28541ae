/**
 * The TCP listener sections (`Haproxy._config_tcp_sections`,
 * `get_tcp_section`): one `listen port_<N>` section per port token, with its
 * statements in a fixed order. Port parsing, bind strings, routes, balance,
 * options and extra settings come from `TcpHelper` and `utils`, whose code is
 * not part of this model: they are taken as given functions.
 */
module Tcp {
  import opened Wrappers
  import opened OrderedDict
  import opened Strings

  /** A route of the topology, by its identity. */
  type Route = string

  /** The helpers this part calls, with the topology (service details, routes, aliases) and the settings bound. */
  datatype TcpHelpers = TcpHelpers(
    /** `TcpHelper.parse_port_string(tcp_port, ssl_bind_string)`: TLS enabled, port number. */
    parsePort: (string, Option<string>) -> (bool, string),
    /** `get_bind_string(enable_ssl, port_num, ssl_bind_string, EXTRA_BIND_SETTINGS)`. */
    bindString: (bool, string, Option<string>) -> string,
    /** `TcpHelper.get_tcp_routes(details, routes, tcp_port, port_num)`: route statements, routes it consumed. */
    tcpRoutes: (string, string) -> (seq<string>, seq<Route>),
    /** `TcpHelper.get_service_aliases_given_tcp_port(details, services_aliases, tcp_port)`. */
    servicesFor: string -> seq<string>,
    /** `TcpHelper.get_tcp_balance(details)`. */
    balance: seq<string>,
    /** `TcpHelper.get_tcp_options(details, services)`. */
    options: seq<string> -> seq<string>,
    /** `TcpHelper.get_tcp_extra_settings(details, services)`. */
    extraSettings: seq<string> -> seq<string>)

  /** What `get_tcp_section` produces for one token: the statements, the port number, and the routes it consumed. */
  datatype TcpSection = TcpSection(statements: seq<string>, portNum: string, routesAdded: seq<Route>)

  function SectionKey(portNum: string): string {
    "listen port_" + portNum
  }

  /** `get_tcp_section` for one token. */
  function BuildTcpSection(h: TcpHelpers, sslBind: Option<string>, token: string): TcpSection {
    var port := h.parsePort(token, sslBind);
    var bind := h.bindString(port.0, port.1, sslBind);
    var routes := h.tcpRoutes(token, port.1);
    var services := h.servicesFor(token);
    var statements := ["bind :" + Strip(bind), "mode tcp"]
      + h.balance + h.options(services) + h.extraSettings(services) + routes.0;
    TcpSection(statements, port.1, routes.1)
  }

  /**
   * A TCP section binds to the stripped bind string, runs in TCP mode, then
   * lists balance, options, extra settings and the routes, in that order;
   * it is keyed by the parsed port number and hands back the routes it consumed.
   */
  lemma TcpSectionLayout(h: TcpHelpers, sslBind: Option<string>, token: string)
    ensures var r := BuildTcpSection(h, sslBind, token);
      var port := h.parsePort(token, sslBind);
      var services := h.servicesFor(token);
      && r.portNum == port.1
      && r.routesAdded == h.tcpRoutes(token, port.1).1
      && |r.statements| >= 2
      && r.statements[0] == "bind :" + Strip(h.bindString(port.0, port.1, sslBind))
      && r.statements[1] == "mode tcp"
      && r.statements[2..] == h.balance + h.options(services) + h.extraSettings(services) + h.tcpRoutes(token, port.1).0
  {
  }

  function Entry(h: TcpHelpers, sslBind: Option<string>, token: string): (string, seq<string>) {
    var section := BuildTcpSection(h, sslBind, token);
    (SectionKey(section.portNum), section.statements)
  }

  /** The writes `cfg["listen port_%s" % port_num] = tcp_section`, one per token of the iteration order. */
  function Entries(h: TcpHelpers, sslBind: Option<string>, order: seq<string>): (es: seq<(string, seq<string>)>)
    ensures |es| == |order|
    ensures forall i :: 0 <= i < |order| ==> es[i] == Entry(h, sslBind, order[i])
  {
    seq(|order|, i requires 0 <= i < |order| => Entry(h, sslBind, order[i]))
  }

  /** The TCP sections for the tokens visited in `order`. */
  function TcpSections(h: TcpHelpers, sslBind: Option<string>, order: seq<string>): ODict<seq<string>> {
    Update(Empty(), ODict(Entries(h, sslBind, order)))
  }

  /** `routes_added` after the loop: each section overwrites it, so the last token visited decides it. */
  function RoutesAddedAfter(h: TcpHelpers, sslBind: Option<string>, order: seq<string>, before: seq<Route>): seq<Route> {
    if order == [] then before else BuildTcpSection(h, sslBind, order[|order| - 1]).routesAdded
  }

  function PortOf(h: TcpHelpers, sslBind: Option<string>, token: string): string {
    BuildTcpSection(h, sslBind, token).portNum
  }

  lemma SectionKeyInjective(a: string, b: string)
    ensures SectionKey(a) == SectionKey(b) ==> a == b
  {
    if SectionKey(a) == SectionKey(b) {
      assert a == SectionKey(a)[12..] && b == SectionKey(b)[12..];
    }
  }

  /** The key each visited token writes: its port number's section key. */
  lemma EntryKeys(h: TcpHelpers, sslBind: Option<string>, order: seq<string>)
    ensures |KeysOf(Entries(h, sslBind, order))| == |order|
    ensures forall i :: 0 <= i < |order| ==> KeysOf(Entries(h, sslBind, order))[i] == SectionKey(PortOf(h, sslBind, order[i]))
  {
  }

  /**
   * One section per port number: the keys are `listen port_<N>` for the port
   * numbers of the visited tokens, each once, in order of first appearance.
   */
  lemma TcpKeys(h: TcpHelpers, sslBind: Option<string>, order: seq<string>, portNum: string)
    ensures Distinct(Keys(TcpSections(h, sslBind, order)))
    ensures SectionKey(portNum) in Keys(TcpSections(h, sslBind, order))
      <==> exists i :: 0 <= i < |order| && PortOf(h, sslBind, order[i]) == portNum
  {
    var es := Entries(h, sslBind, order);
    var ks := KeysOf(es);
    EntryKeys(h, sslBind, order);
    FromEntries(es, SectionKey(portNum));
    if SectionKey(portNum) in ks {
      var i :| 0 <= i < |ks| && ks[i] == SectionKey(portNum);
      SectionKeyInjective(PortOf(h, sslBind, order[i]), portNum);
    }
    if exists i :: 0 <= i < |order| && PortOf(h, sslBind, order[i]) == portNum {
      var i :| 0 <= i < |order| && PortOf(h, sslBind, order[i]) == portNum;
      assert ks[i] == SectionKey(portNum);
    }
  }

  /** Two tokens with the same port number share one section, and the later token's statements win. */
  lemma TcpLastWriteWins(h: TcpHelpers, sslBind: Option<string>, order: seq<string>, i: nat)
    requires i < |order|
    requires forall j :: i < j < |order| ==> PortOf(h, sslBind, order[j]) != PortOf(h, sslBind, order[i])
    ensures Get(TcpSections(h, sslBind, order), SectionKey(PortOf(h, sslBind, order[i])))
         == Some(BuildTcpSection(h, sslBind, order[i]).statements)
  {
    var es := Entries(h, sslBind, order);
    forall j | i < j < |es| ensures es[j].0 != es[i].0 {
      SectionKeyInjective(PortOf(h, sslBind, order[j]), PortOf(h, sslBind, order[i]));
    }
    LastValueAt(es, i);
    FromEntries(es, es[i].0);
  }

  /** With distinct port numbers, the sections follow the visiting order one to one. */
  lemma TcpDistinctPorts(h: TcpHelpers, sslBind: Option<string>, order: seq<string>)
    requires forall i, j :: 0 <= i < j < |order| ==> PortOf(h, sslBind, order[i]) != PortOf(h, sslBind, order[j])
    ensures Keys(TcpSections(h, sslBind, order)) == KeysOf(Entries(h, sslBind, order))
    ensures |Keys(TcpSections(h, sslBind, order))| == |order|
  {
    var ks := KeysOf(Entries(h, sslBind, order));
    EntryKeys(h, sslBind, order);
    assert Distinct([] + ks) by {
      forall i, j | 0 <= i < j < |ks| ensures ks[i] != ks[j] {
        SectionKeyInjective(PortOf(h, sslBind, order[i]), PortOf(h, sslBind, order[j]));
      }
      assert [] + ks == ks;
    }
    AppendedFresh([], ks);
    FromEntries(Entries(h, sslBind, order), "");
  }

  /** Visiting one more token writes its section into the sections built so far. */
  lemma TcpSectionsSnoc(h: TcpHelpers, sslBind: Option<string>, order: seq<string>, token: string)
    ensures var section := BuildTcpSection(h, sslBind, token);
      TcpSections(h, sslBind, order + [token])
        == Set(TcpSections(h, sslBind, order), SectionKey(section.portNum), section.statements)
  {
    var section := BuildTcpSection(h, sslBind, token);
    var es := Entries(h, sslBind, order);
    assert Entries(h, sslBind, order + [token]) == es + [(SectionKey(section.portNum), section.statements)];
    UpdateSnoc([], es, SectionKey(section.portNum), section.statements);
  }
}
