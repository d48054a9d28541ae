/**
 * The configuration builder (`haproxy/haproxycfg.py`, class `Haproxy`).
 * Each cycle builds a fresh `Haproxy` object whose per-cycle fields record
 * the TLS bind suffix, whether certificates changed, the routes the TCP
 * sections consumed and whether a default route is required; the
 * class-level attributes that survive between cycles (the last
 * configuration text and the stored certificates) live in a `Shared`
 * object, together with the log of collaborator calls.
 */
module HaproxyCfg {
  import opened Wrappers
  import opened OrderedDict
  import opened Effects
  import Strings
  import Ssl
  import Reload
  import Sections
  import Userlist
  import Tcp
  import Frontend
  import Backend

  type Cert = Ssl.Cert
  type Route = Tcp.Route
  type Document = ODict<seq<string>>

  /**
   * The settings read from the environment. Statement lists that
   * `ConfigHelper` derives from settings, and the certificate list
   * `SslHelper.get_extra_ssl_certs(EXTRA_SSL_CERT)`, are given already derived.
   */
  datatype Settings = Settings(
    /** `HAPROXY_SERVICE_URI`, `HAPROXY_CONTAINER_URI` and `API_AUTH` are all set. */
    remote: bool,
    defaultSslCert: Cert,
    extraSslCerts: seq<Cert>,
    defaultCaCert: Cert,
    rsyslogDestination: string,
    maxconn: string,
    bindOptions: seq<string>,
    bindCiphers: seq<string>,
    extraGlobal: seq<string>,
    balance: string,
    mode: string,
    options: seq<string>,
    timeouts: seq<string>,
    extraDefault: seq<string>,
    statsPort: string,
    extraBind: map<string, string>,
    statsAuth: string,
    /** `HTTP_BASIC_AUTH`, `None` when unset. */
    basicAuth: Option<string>)

  /**
   * What the `Specs` parser reports about the linked services, with the
   * helper modules that read it bound to it.
   */
  datatype Topology = Topology(
    /** `specs.get_default_ssl_cert()`. */
    defaultSslCerts: seq<Cert>,
    /** `specs.get_ssl_cert()`. */
    sslCerts: seq<Cert>,
    /** `get_service_attribute(details, "tcp_ports")` is truthy. */
    hasTcpPorts: bool,
    /** `TcpHelper.get_tcp_port_list(details, services_aliases)`. */
    tcpPorts: seq<string>,
    /** `specs.get_vhosts()` is non-empty. */
    hasVhosts: bool,
    /** `specs.get_service_aliases()`. */
    serviceAliases: seq<string>,
    tcp: Tcp.TcpHelpers,
    frontend: Frontend.FrontendHelpers,
    backend: Backend.BackendHelpers)

  /** The class-level attributes shared by every cycle, and the collaborator calls made so far. */
  class Shared {
    /** `Haproxy.cls_cfg`: the last configuration text kept. */
    var cfg: Option<string>
    /** `Haproxy.cls_certs`: the last certificate list stored. */
    var certs: seq<Cert>
    /** Calls to `save_certs`, `save_to_file`, `run_reload` and `run_once`, in order. */
    var calls: seq<Call>

    /** The state before the first cycle: no text, no certificates, no calls. */
    constructor()
      ensures cfg == None && certs == [] && calls == []
    {
      cfg := None;
      certs := [];
      calls := [];
    }
  }

  /** The document keys a cycle starts with, in this order. */
  const HeadKeys := ["global", "defaults", "listen stats"]

  /** The global, defaults and stats sections, followed by the per-topology parts. */
  function DocumentParts(s: Settings, rest: seq<Document>): seq<Document> {
    [Sections.GlobalSection(s.rsyslogDestination, s.maxconn, s.bindOptions, s.bindCiphers, s.extraGlobal),
     Sections.DefaultsSection(s.balance, s.mode, s.options, s.timeouts, s.extraDefault),
     Sections.StatsSection(s.statsPort, s.extraBind, s.statsAuth)] + rest
  }

  /** The fixed parts contribute `global`, `defaults` and `listen stats`, in that order. */
  lemma HeadAllKeys(s: Settings, rest: seq<Document>)
    ensures AllKeys(DocumentParts(s, rest)[..3]) == HeadKeys
  {
    var p := DocumentParts(s, rest)[..3];
    assert p[..2][..1][..0] == [];
    assert p[..2][..1] == [p[0]] && p[..2] == [p[0], p[1]];
    assert AllKeys(p[..2][..1]) == Keys(p[0]) == ["global"];
    assert AllKeys(p[..2]) == ["global"] + Keys(p[1]) == ["global", "defaults"];
  }

  /** Merging seven parts one after the other is assembling them. */
  lemma AssembleSeven(a: Document, b: Document, c: Document, d: Document, e: Document, f: Document, g: Document)
    ensures Assemble([a, b, c, d, e, f, g])
         == Update(Update(Update(Update(Update(Update(Update(Empty(), a), b), c), d), e), f), g)
  {
    var parts := [a, b, c, d, e, f, g];
    assert [a][..0] == [];
    assert Assemble([a]) == Update(Empty(), a);
    assert [a, b][..1] == [a];
    assert Assemble([a, b]) == Update(Assemble([a]), b);
    assert [a, b, c][..2] == [a, b];
    assert Assemble([a, b, c]) == Update(Assemble([a, b]), c);
    assert [a, b, c, d][..3] == [a, b, c];
    assert Assemble([a, b, c, d]) == Update(Assemble([a, b, c]), d);
    assert [a, b, c, d, e][..4] == [a, b, c, d];
    assert Assemble([a, b, c, d, e]) == Update(Assemble([a, b, c, d]), e);
    assert [a, b, c, d, e, f][..5] == [a, b, c, d, e];
    assert Assemble([a, b, c, d, e, f]) == Update(Assemble([a, b, c, d, e]), f);
    assert parts[..6] == [a, b, c, d, e, f];
  }

  /**
   * Merging the parts one after the other, in `update`'s order, gives the
   * assembled document, which starts with `global`, `defaults` and
   * `listen stats`, each once.
   */
  lemma MergedDocument(s: Settings, userlist: Document, tcp: Document, frontend: Document, backend: Document)
    ensures var d := DocumentParts(s, [userlist, tcp, frontend, backend]);
      var doc := Update(Update(Update(Update(Update(Update(Update(Empty(), d[0]), d[1]), d[2]), d[3]), d[4]), d[5]), d[6]);
      && d[0] == Sections.GlobalSection(s.rsyslogDestination, s.maxconn, s.bindOptions, s.bindCiphers, s.extraGlobal)
      && d[1] == Sections.DefaultsSection(s.balance, s.mode, s.options, s.timeouts, s.extraDefault)
      && d[2] == Sections.StatsSection(s.statsPort, s.extraBind, s.statsAuth)
      && d[3] == userlist && d[4] == tcp && d[5] == frontend && d[6] == backend
      && Assemble(d) == doc
      && |Keys(doc)| >= 3 && Keys(doc)[..3] == HeadKeys && Distinct(Keys(doc))
  {
    var d := DocumentParts(s, [userlist, tcp, frontend, backend]);
    assert d == [d[0], d[1], d[2], d[3], d[4], d[5], d[6]];
    AssembleSeven(d[0], d[1], d[2], d[3], d[4], d[5], d[6]);
    DocumentHead(s, [userlist, tcp, frontend, backend]);
  }

  lemma HeadKeysDistinct()
    ensures Distinct(HeadKeys)
  {
    assert HeadKeys[0][0] == 'g' && HeadKeys[1][0] == 'd' && HeadKeys[2][0] == 'l';
  }

  /** Parts whose first three contribute the head keys assemble into a document that starts with them, each once. */
  lemma HeadFirst(parts: seq<Document>)
    requires |parts| >= 3 && AllKeys(parts[..3]) == HeadKeys
    ensures |Keys(Assemble(parts))| >= 3 && Keys(Assemble(parts))[..3] == HeadKeys
    ensures Distinct(Keys(Assemble(parts)))
  {
    AssemblePrefix(parts, 3);
    AssembleKeys(parts);
    AssembleKeys(parts[..3]);
    HeadKeysDistinct();
    assert [] + HeadKeys == HeadKeys;
    AppendedFresh([], HeadKeys);
  }

  /** Whatever follows, the document starts with `global`, `defaults` and `listen stats`, each once. */
  lemma DocumentHead(s: Settings, rest: seq<Document>)
    ensures var doc := Assemble(DocumentParts(s, rest));
      |Keys(doc)| >= 3 && Keys(doc)[..3] == HeadKeys && Distinct(Keys(doc))
  {
    HeadAllKeys(s, rest);
    HeadFirst(DocumentParts(s, rest));
  }

  /** Every key of every part, and no other, is a key of the document. */
  lemma DocumentMembers(s: Settings, rest: seq<Document>, k: string)
    ensures k in Keys(Assemble(DocumentParts(s, rest)))
      <==> k in HeadKeys || exists i :: 0 <= i < |rest| && k in Keys(rest[i])
  {
    var parts := DocumentParts(s, rest);
    AssembleKeys(parts);
    AllKeysMembers(parts, k);
    AppendedMembers([], AllKeys(parts), k);
    HeadAllKeys(s, rest);
    AllKeysMembers(parts[..3], k);
    if exists i :: 0 <= i < |rest| && k in Keys(rest[i]) {
      var i :| 0 <= i < |rest| && k in Keys(rest[i]);
      assert parts[i + 3] == rest[i];
    }
    if exists j :: 0 <= j < |parts| && k in Keys(parts[j]) {
      var j :| 0 <= j < |parts| && k in Keys(parts[j]);
      if j >= 3 {
        assert rest[j - 3] == parts[j];
      } else {
        assert parts[..3][j] == parts[j];
      }
    }
    if k in HeadKeys {
      var j :| 0 <= j < 3 && k in Keys(parts[..3][j]);
      assert parts[j] == parts[..3][j];
    }
  }

  /**
   * `order` lists, each once, the tokens of `ports` already visited, and
   * `remaining` holds the rest of `set(ports)`.
   */
  ghost predicate Enumerating(ports: seq<string>, order: seq<string>, remaining: set<string>) {
    && (forall t :: t in order || t in remaining <==> t in ports)
    && (forall t :: t in order ==> t !in remaining)
    && (forall i, j :: 0 <= i < j < |order| ==> order[i] != order[j])
  }

  /**
   * The TCP ports of `h` visited in `order`, each once, and the routes list
   * they leave behind when it held `routesBefore`.
   */
  ghost predicate VisitedPorts(h: Topology, ssl: Option<string>, order: seq<string>,
                               routesBefore: seq<Route>, routesAfter: seq<Route>)
  {
    if h.hasTcpPorts then
      && (forall t :: t in order <==> t in h.tcpPorts)
      && (forall i, j :: 0 <= i < j < |order| ==> order[i] != order[j])
      && routesAfter == Tcp.RoutesAddedAfter(h.tcp, ssl, order, routesBefore)
    else
      order == [] && routesAfter == routesBefore
  }

  /**
   * `doc` is the document `update` merges: the fixed head, the userlist, the
   * TCP sections of the ports visited in `order`, the frontends and the
   * backends. `routes` is the route list the TCP sections leave behind and
   * `requireBefore`/`requireAfter` the default-route flag around the
   * frontends.
   */
  ghost predicate MergedAs(doc: Document, s: Settings, h: Topology, ssl: Option<string>, order: seq<string>,
                           routes: seq<Route>, requireBefore: bool, requireAfter: bool)
  {
    var frontend := Frontend.FrontendSections(h.frontend, h.hasVhosts, ssl, routes, requireBefore);
    && requireAfter == frontend.requireDefaultRoute
    && doc == Assemble(DocumentParts(s, [
         Userlist.UserlistSection(s.basicAuth),
         Tcp.TcpSections(h.tcp, ssl, order),
         frontend.cfg,
         Backend.BackendSections(h.backend, requireAfter, routes,
                                 Backend.BackendAliases(h.hasVhosts, h.serviceAliases))]))
  }

  /** Visiting one more remaining token keeps the enumeration going. */
  lemma EnumeratingStep(ports: seq<string>, order: seq<string>, remaining: set<string>, token: string)
    requires Enumerating(ports, order, remaining) && token in remaining
    ensures Enumerating(ports, order + [token], remaining - {token})
  {
  }

  class Haproxy {
    const shared: Shared
    const settings: Settings
    /** `self.specs`, as `_initialize` leaves it. */
    const specs: Topology

    var sslBindString: Option<string>
    var sslUpdated: bool
    var routesAdded: seq<Route>
    var requireDefaultRoute: bool

    /** `Haproxy(msg)`: the per-cycle fields start empty. */
    constructor(shared: Shared, settings: Settings, specs: Topology)
      ensures this.shared == shared && this.settings == settings && this.specs == specs
      ensures sslBindString == None && !sslUpdated && routesAdded == [] && !requireDefaultRoute
    {
      this.shared := shared;
      this.settings := settings;
      this.specs := specs;
      sslBindString := None;
      sslUpdated := false;
      routesAdded := [];
      requireDefaultRoute := false;
    }

    /** The leaf certificates a cycle collects. */
    function LeafList(): seq<Cert> {
      Ssl.LeafCerts(settings.defaultSslCert, settings.extraSslCerts, specs.defaultSslCerts, specs.sslCerts)
    }

    /** The CA certificates a cycle collects. */
    function CaList(): seq<Cert> {
      Ssl.CaCerts(settings.defaultCaCert)
    }

    /** `_config_ssl_certs`: the leaf step against the stored list. */
    method ConfigSslCerts() returns (bind: string)
      modifies this`sslUpdated, shared`certs, shared`calls
      ensures var r := Ssl.Step(LeafList(), Ssl.LeafBind, Ssl.CertState(old(shared.certs), old(sslUpdated)));
        && bind == r.bind
        && shared.certs == r.state.stored && sslUpdated == r.state.updated
        && shared.calls == old(shared.calls) + (if r.saved then [SaveCerts(CertDir, LeafList())] else [])
    {
      bind := "";
      var certs: seq<Cert> := [];
      if settings.defaultSslCert != "" {
        certs := certs + [settings.defaultSslCert];
      }
      certs := certs + settings.extraSslCerts;
      certs := certs + specs.defaultSslCerts;
      certs := certs + specs.sslCerts;
      assert certs == LeafList();
      if certs != [] {
        if Ssl.Differ(certs, shared.certs) {
          shared.certs := certs;
          sslUpdated := true;
          shared.calls := shared.calls + [SaveCerts(CertDir, certs)];
        }
        bind := Ssl.LeafBind;
      }
    }

    /** `_config_ssl_cacerts`: the CA step against the same stored list. */
    method ConfigSslCacerts() returns (bind: string)
      modifies this`sslUpdated, shared`certs, shared`calls
      ensures var r := Ssl.Step(CaList(), Ssl.CaBind, Ssl.CertState(old(shared.certs), old(sslUpdated)));
        && bind == r.bind
        && shared.certs == r.state.stored && sslUpdated == r.state.updated
        && shared.calls == old(shared.calls) + (if r.saved then [SaveCerts(CaCertDir, CaList())] else [])
    {
      bind := "";
      var cacerts: seq<Cert> := [];
      if settings.defaultCaCert != "" {
        cacerts := cacerts + [settings.defaultCaCert];
      }
      assert cacerts == CaList();
      if cacerts != [] {
        if Ssl.Differ(cacerts, shared.certs) {
          shared.certs := cacerts;
          sslUpdated := true;
          shared.calls := shared.calls + [SaveCerts(CaCertDir, cacerts)];
        }
        bind := Ssl.CaBind;
      }
    }

    /** `_config_ssl`: both steps; the bind suffix is kept only when non-empty. */
    method ConfigSsl()
      modifies this`sslBindString, this`sslUpdated, shared`certs, shared`calls
      ensures var r := Ssl.SslCycle(LeafList(), CaList(), Ssl.CertState(old(shared.certs), old(sslUpdated)));
        && sslBindString == Ssl.NewBindString(old(sslBindString), r.bind)
        && shared.certs == r.state.stored && sslUpdated == r.state.updated
        && shared.calls == old(shared.calls)
             + (if r.savedLeaf then [SaveCerts(CertDir, LeafList())] else [])
             + (if r.savedCa then [SaveCerts(CaCertDir, CaList())] else [])
    {
      ghost var l := Ssl.Step(LeafList(), Ssl.LeafBind, Ssl.CertState(shared.certs, sslUpdated));
      var bind := "";
      var leafBind := ConfigSslCerts();
      bind := bind + leafBind;
      assert bind == leafBind;
      assert Ssl.CertState(shared.certs, sslUpdated) == l.state;
      var caBind := ConfigSslCacerts();
      bind := bind + caBind;
      if bind != "" {
        sslBindString := Some(bind);
      }
    }

    /** `get_tcp_section`: the section for one port token; `routes_added` becomes the routes it consumed. */
    method GetTcpSection(token: string) returns (section: seq<string>, portNum: string)
      modifies this`routesAdded
      ensures var s := Tcp.BuildTcpSection(specs.tcp, sslBindString, token);
        section == s.statements && portNum == s.portNum && routesAdded == s.routesAdded
    {
      var h := specs.tcp;
      section := [];
      var port := h.parsePort(token, sslBindString);
      portNum := port.1;
      var bind := h.bindString(port.0, portNum, sslBindString);
      var routes := h.tcpRoutes(token, portNum);
      routesAdded := routes.1;
      var services := h.servicesFor(token);
      section := section + ["bind :" + Strings.Strip(bind)];
      section := section + ["mode tcp"];
      section := section + h.balance;
      section := section + h.options(services);
      section := section + h.extraSettings(services);
      section := section + routes.0;
      assert section == ["bind :" + Strings.Strip(bind), "mode tcp"]
        + h.balance + h.options(services) + h.extraSettings(services) + routes.0;
    }

    /**
     * `_config_tcp_sections`: one section per distinct port token, visited
     * in the unspecified order of a Python set; `order` is the order taken.
     */
    method ConfigTcpSections() returns (cfg: Document, ghost order: seq<string>)
      modifies this`routesAdded
      ensures !specs.hasTcpPorts ==> cfg == Empty() && order == [] && routesAdded == old(routesAdded)
      ensures specs.hasTcpPorts ==>
        && (forall t :: t in order <==> t in specs.tcpPorts)
        && (forall i, j :: 0 <= i < j < |order| ==> order[i] != order[j])
        && cfg == Tcp.TcpSections(specs.tcp, sslBindString, order)
        && routesAdded == Tcp.RoutesAddedAfter(specs.tcp, sslBindString, order, old(routesAdded))
    {
      cfg := Empty();
      order := [];
      if !specs.hasTcpPorts {
        return;
      }
      ghost var before := routesAdded;
      var remaining := set t | t in specs.tcpPorts;
      while remaining != {}
        invariant Enumerating(specs.tcpPorts, order, remaining)
        invariant cfg == Tcp.TcpSections(specs.tcp, sslBindString, order)
        invariant routesAdded == Tcp.RoutesAddedAfter(specs.tcp, sslBindString, order, before)
        decreases |remaining|
      {
        var token :| token in remaining;
        var section, portNum := GetTcpSection(token);
        Tcp.TcpSectionsSnoc(specs.tcp, sslBindString, order, token);
        EnumeratingStep(specs.tcpPorts, order, remaining, token);
        assert routesAdded == Tcp.RoutesAddedAfter(specs.tcp, sslBindString, order + [token], before);
        cfg := Set(cfg, Tcp.SectionKey(portNum), section);
        order := order + [token];
        remaining := remaining - {token};
      }
    }

    /** `_config_frontend_sections`; without virtual hosts it also decides `require_default_route`. */
    method ConfigFrontendSections() returns (cfg: Document)
      modifies this`requireDefaultRoute
      ensures var r := Frontend.FrontendSections(specs.frontend, specs.hasVhosts, sslBindString, routesAdded, old(requireDefaultRoute));
        cfg == r.cfg && requireDefaultRoute == r.requireDefaultRoute
    {
      var h := specs.frontend;
      var monitorConfigured := false;
      if specs.hasVhosts {
        cfg, monitorConfigured := h.withVirtualHost(sslBindString).0, h.withVirtualHost(sslBindString).1;
      } else {
        requireDefaultRoute := h.requireDefaultRoute(routesAdded);
        if requireDefaultRoute {
          cfg, monitorConfigured := h.defaultFrontend(sslBindString).0, h.defaultFrontend(sslBindString).1;
        } else {
          cfg := Empty();
        }
      }
      cfg := OrderedDict.Update(cfg, h.monitorFrontend(monitorConfigured));
    }

    /** `_config_backend_sections`: each alias's backend written under its key, later writes replacing earlier ones. */
    method ConfigBackendSections() returns (cfg: Document)
      ensures cfg == Backend.BackendSections(specs.backend, requireDefaultRoute, routesAdded,
                                             Backend.BackendAliases(specs.hasVhosts, specs.serviceAliases))
    {
      var h := specs.backend;
      var aliases := Backend.BackendAliases(specs.hasVhosts, specs.serviceAliases);
      cfg := Empty();
      for i := 0 to |aliases|
        invariant cfg == Backend.BackendSections(h, requireDefaultRoute, routesAdded, aliases[..i])
      {
        var alias := aliases[i];
        var backend := h.section(alias, routesAdded);
        Backend.SectionsSnoc(h, requireDefaultRoute, routesAdded, aliases, i);
        if Backend.Falsy(alias) {
          if requireDefaultRoute {
            cfg := Set(cfg, Backend.DefaultBackend, backend);
          }
        } else {
          if h.hasVirtualHost(alias.value) {
            cfg := Set(cfg, Backend.ServiceBackend(alias.value), backend);
          } else {
            cfg := Set(cfg, Backend.DefaultBackend, backend);
          }
        }
      }
      assert aliases[..|aliases|] == aliases;
    }

    /** `_update_haproxy(cfg)`; `saveOk` is what `save_to_file` returns. */
    method UpdateHaproxy(cfg: string, saveOk: bool)
      modifies shared`cfg, shared`calls
      ensures var d := Reload.Decide(settings.remote, old(shared.cfg), cfg, sslUpdated, saveOk);
        shared.cfg == d.lastCfg && shared.calls == old(shared.calls) + d.calls
    {
      if settings.remote {
        if shared.cfg != Some(cfg) {
          shared.cfg := Some(cfg);
          shared.calls := shared.calls + [SaveConfig(cfg)];
          if saveOk {
            shared.calls := shared.calls + [RunReload];
          }
        } else if sslUpdated {
          shared.calls := shared.calls + [RunReload];
        }
      } else {
        shared.calls := shared.calls + [SaveConfig(cfg), RunOnce];
      }
    }

    /**
     * The part of `update` that reads and writes the instance state: the TCP,
     * frontend and backend sections merged, in that order, onto `base`.
     */
    method MergeRouted(base: Document) returns (cfgDict: Document, ghost order: seq<string>)
      modifies this`routesAdded, this`requireDefaultRoute
      ensures specs.hasTcpPorts ==> (forall t :: t in order <==> t in specs.tcpPorts)
                                    && (forall i, j :: 0 <= i < j < |order| ==> order[i] != order[j])
                                    && routesAdded == Tcp.RoutesAddedAfter(specs.tcp, sslBindString, order, old(routesAdded))
      ensures !specs.hasTcpPorts ==> order == [] && routesAdded == old(routesAdded)
      ensures var frontend := Frontend.FrontendSections(specs.frontend, specs.hasVhosts, sslBindString, routesAdded, old(requireDefaultRoute));
        && requireDefaultRoute == frontend.requireDefaultRoute
        && cfgDict == OrderedDict.Update(OrderedDict.Update(OrderedDict.Update(base,
             Tcp.TcpSections(specs.tcp, sslBindString, order)),
             frontend.cfg),
             Backend.BackendSections(specs.backend, requireDefaultRoute, routesAdded,
                                     Backend.BackendAliases(specs.hasVhosts, specs.serviceAliases)))
    {
      var tcp;
      tcp, order := ConfigTcpSections();
      cfgDict := OrderedDict.Update(base, tcp);
      var frontend := ConfigFrontendSections();
      cfgDict := OrderedDict.Update(cfgDict, frontend);
      var backend := ConfigBackendSections();
      cfgDict := OrderedDict.Update(cfgDict, backend);
    }

    /**
     * The body of `update` between `_config_ssl` and `prettify`: the
     * sections merged in document order. `order` is the order the TCP ports
     * were visited in.
     */
    method MergeSections() returns (cfgDict: Document, ghost order: seq<string>)
      modifies this`routesAdded, this`requireDefaultRoute
      ensures |Keys(cfgDict)| >= 3 && Keys(cfgDict)[..3] == HeadKeys && Distinct(Keys(cfgDict))
      ensures VisitedPorts(specs, sslBindString, order, old(routesAdded), routesAdded)
      ensures MergedAs(cfgDict, settings, specs, sslBindString, order, routesAdded, old(requireDefaultRoute), requireDefaultRoute)
    {
      var s := settings;
      cfgDict := Empty();
      var global := Sections.GlobalSection(s.rsyslogDestination, s.maxconn, s.bindOptions, s.bindCiphers, s.extraGlobal);
      cfgDict := OrderedDict.Update(cfgDict, global);
      var defaults := Sections.DefaultsSection(s.balance, s.mode, s.options, s.timeouts, s.extraDefault);
      cfgDict := OrderedDict.Update(cfgDict, defaults);
      var stats := Sections.StatsSection(s.statsPort, s.extraBind, s.statsAuth);
      cfgDict := OrderedDict.Update(cfgDict, stats);
      var userlist := Userlist.ConfigUserlistSection(s.basicAuth);
      assert userlist == Userlist.UserlistSection(s.basicAuth);
      cfgDict := OrderedDict.Update(cfgDict, userlist);
      ghost var routesBefore, requireBefore := routesAdded, requireDefaultRoute;
      cfgDict, order := MergeRouted(cfgDict);
      ghost var tcp := Tcp.TcpSections(specs.tcp, sslBindString, order);
      ghost var frontend := Frontend.FrontendSections(specs.frontend, specs.hasVhosts, sslBindString, routesAdded, requireBefore).cfg;
      ghost var backend := Backend.BackendSections(specs.backend, requireDefaultRoute, routesAdded,
                                                   Backend.BackendAliases(specs.hasVhosts, specs.serviceAliases));
      assert |Keys(cfgDict)| >= 3 && Keys(cfgDict)[..3] == HeadKeys && Distinct(Keys(cfgDict))
        && cfgDict == Assemble(DocumentParts(s, [userlist, tcp, frontend, backend])) by {
        MergedDocument(s, userlist, tcp, frontend, backend);
      }
    }

    /**
     * `update`: TLS first, then the sections merged in document order,
     * rendered by `prettify` and handed to the reload decision. `doc` is the
     * merged document and `order` the order the TCP ports were visited in.
     */
    method Update(prettify: Document -> string, saveOk: bool) returns (ghost doc: Document, ghost order: seq<string>)
      modifies this`sslBindString, this`sslUpdated, this`routesAdded, this`requireDefaultRoute, shared`certs, shared`cfg, shared`calls
      ensures |Keys(doc)| >= 3 && Keys(doc)[..3] == HeadKeys && Distinct(Keys(doc))
      ensures var ssl := Ssl.SslCycle(LeafList(), CaList(), Ssl.CertState(old(shared.certs), old(sslUpdated)));
        var d := Reload.Decide(settings.remote, old(shared.cfg), prettify(doc), sslUpdated, saveOk);
        && sslBindString == Ssl.NewBindString(old(sslBindString), ssl.bind)
        && shared.certs == ssl.state.stored && sslUpdated == ssl.state.updated
        && shared.cfg == d.lastCfg
        && shared.calls == old(shared.calls)
             + (if ssl.savedLeaf then [SaveCerts(CertDir, LeafList())] else [])
             + (if ssl.savedCa then [SaveCerts(CaCertDir, CaList())] else [])
             + d.calls
      ensures VisitedPorts(specs, sslBindString, order, old(routesAdded), routesAdded)
      ensures MergedAs(doc, settings, specs, sslBindString, order, routesAdded, old(requireDefaultRoute), requireDefaultRoute)
    {
      ConfigSsl();
      var cfgDict;
      cfgDict, order := MergeSections();
      doc := cfgDict;
      var text := prettify(cfgDict);
      UpdateHaproxy(text, saveOk);
    }
  }

  /**
   * `run_haproxy`: one cycle on a fresh `Haproxy` object. Its per-cycle
   * state starts empty, so with virtual hosts a default route is never
   * required, and the bind string is set exactly when some certificate is.
   */
  method RunHaproxy(shared: Shared, settings: Settings, specs: Topology, prettify: Document -> string, saveOk: bool)
    returns (h: Haproxy, ghost doc: Document, ghost order: seq<string>)
    modifies shared
    ensures fresh(h) && h.shared == shared && h.settings == settings && h.specs == specs
    ensures var ssl := Ssl.SslCycle(h.LeafList(), h.CaList(), Ssl.CertState(old(shared.certs), false));
      var d := Reload.Decide(settings.remote, old(shared.cfg), prettify(doc), h.sslUpdated, saveOk);
      && h.sslBindString == Ssl.NewBindString(None, ssl.bind)
      && (h.sslBindString == None <==> h.LeafList() == [] && h.CaList() == [])
      && shared.certs == ssl.state.stored && h.sslUpdated == ssl.state.updated
      && shared.cfg == d.lastCfg
      && shared.calls == old(shared.calls)
           + (if ssl.savedLeaf then [SaveCerts(CertDir, h.LeafList())] else [])
           + (if ssl.savedCa then [SaveCerts(CaCertDir, h.CaList())] else [])
           + d.calls
    ensures specs.hasVhosts ==> !h.requireDefaultRoute
    ensures |Keys(doc)| >= 3 && Keys(doc)[..3] == HeadKeys && Distinct(Keys(doc))
    ensures VisitedPorts(specs, h.sslBindString, order, [], h.routesAdded)
    ensures MergedAs(doc, settings, specs, h.sslBindString, order, h.routesAdded, false, h.requireDefaultRoute)
  {
    h := new Haproxy(shared, settings, specs);
    ghost var certs := shared.certs;
    doc, order := h.Update(prettify, saveOk);
    Ssl.BindStringAfterCycle(None, h.LeafList(), h.CaList(), Ssl.CertState(certs, false));
  }
}
