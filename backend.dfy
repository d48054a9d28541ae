/**
 * The backend sections (`Haproxy._config_backend_sections`): one backend per
 * service alias (a single unnamed one without virtual hosts), written to
 * `backend SERVICE_<alias>` when the service has a virtual host and to
 * `backend default_service` otherwise. `BackendHelper` and
 * `get_service_attribute` are not part of this model and are taken as given
 * functions.
 */
module Backend {
  import opened Wrappers
  import opened OrderedDict

  type Route = string

  /** The helpers this part calls, with details, routes and virtual hosts bound. */
  datatype BackendHelpers = BackendHelpers(
    /** `BackendHelper.get_backend_section(details, routes, vhosts, service_alias, routes_added)`. */
    section: (Option<string>, seq<Route>) -> seq<string>,
    /** `get_service_attribute(details, "virtual_host", service_alias)` is truthy. */
    hasVirtualHost: string -> bool)

  const DefaultBackend := "backend default_service"

  function ServiceBackend(alias: string): string {
    "backend SERVICE_" + alias
  }

  /** Python's `not service_alias`: no alias, or the empty one. */
  predicate Falsy(alias: Option<string>) {
    alias.None? || alias.value == ""
  }

  /** The aliases visited: `[None]` without virtual hosts, the service aliases otherwise. */
  function BackendAliases(hasVhosts: bool, serviceAliases: seq<string>): (r: seq<Option<string>>)
    ensures !hasVhosts ==> r == [None]
    ensures hasVhosts ==> |r| == |serviceAliases| && forall i :: 0 <= i < |r| ==> r[i] == Some(serviceAliases[i])
  {
    if !hasVhosts then [None]
    else seq(|serviceAliases|, i requires 0 <= i < |serviceAliases| => Some(serviceAliases[i]))
  }

  /**
   * The key one alias writes its backend to, if any: an unnamed alias writes
   * `default_service` only when a default route is required; a named one
   * writes its own `SERVICE_` backend when its service has a virtual host,
   * and `default_service` otherwise.
   */
  function BackendKey(h: BackendHelpers, requireDefault: bool, alias: Option<string>): (key: Option<string>)
    ensures key.None? <==> Falsy(alias) && !requireDefault
    ensures key == Some(DefaultBackend)
      <==> (Falsy(alias) && requireDefault) || (!Falsy(alias) && !h.hasVirtualHost(alias.value))
    ensures key.Some? && key != Some(DefaultBackend) ==> key == Some(ServiceBackend(alias.value))
  {
    if Falsy(alias) then (if requireDefault then Some(DefaultBackend) else None)
    else if h.hasVirtualHost(alias.value) then
      ServiceBackendKey(alias.value, alias.value);
      Some(ServiceBackend(alias.value))
    else Some(DefaultBackend)
  }

  /** The writes into `cfg`, in visiting order. */
  function BackendEntries(h: BackendHelpers, requireDefault: bool, routesAdded: seq<Route>,
                          aliases: seq<Option<string>>): (es: seq<(string, seq<string>)>)
    ensures |es| <= |aliases|
  {
    if aliases == [] then []
    else
      var alias := aliases[|aliases| - 1];
      var init := BackendEntries(h, requireDefault, routesAdded, aliases[..|aliases| - 1]);
      match BackendKey(h, requireDefault, alias)
      case None => init
      case Some(key) => init + [(key, h.section(alias, routesAdded))]
  }

  /** The backend sections for the aliases visited. */
  function BackendSections(h: BackendHelpers, requireDefault: bool, routesAdded: seq<Route>,
                           aliases: seq<Option<string>>): ODict<seq<string>> {
    Update(Empty(), ODict(BackendEntries(h, requireDefault, routesAdded, aliases)))
  }

  /** Visiting one more alias adds its backend under its key, if it has one. */
  lemma SectionsSnoc(h: BackendHelpers, requireDefault: bool, routesAdded: seq<Route>,
                     aliases: seq<Option<string>>, i: nat)
    requires i < |aliases|
    ensures var before := BackendSections(h, requireDefault, routesAdded, aliases[..i]);
      BackendSections(h, requireDefault, routesAdded, aliases[..i + 1])
        == match BackendKey(h, requireDefault, aliases[i])
           case None => before
           case Some(k) => Set(before, k, h.section(aliases[i], routesAdded))
  {
    assert aliases[..i + 1][..i] == aliases[..i];
    var es := BackendEntries(h, requireDefault, routesAdded, aliases[..i]);
    match BackendKey(h, requireDefault, aliases[i]) {
      case None =>
      case Some(k) => UpdateSnoc([], es, k, h.section(aliases[i], routesAdded));
    }
  }

  /** Some alias writes to `key`. */
  predicate Writes(h: BackendHelpers, requireDefault: bool, aliases: seq<Option<string>>, key: string) {
    exists i :: 0 <= i < |aliases| && BackendKey(h, requireDefault, aliases[i]) == Some(key)
  }

  /** `i` is the last alias writing to `key`. */
  predicate LastWriter(h: BackendHelpers, requireDefault: bool, aliases: seq<Option<string>>, key: string, i: int) {
    && 0 <= i < |aliases|
    && BackendKey(h, requireDefault, aliases[i]) == Some(key)
    && forall j :: i < j < |aliases| ==> BackendKey(h, requireDefault, aliases[j]) != Some(key)
  }

  /** A key is written iff some alias writes it. */
  lemma {:induction false} EntriesKeys(h: BackendHelpers, requireDefault: bool, routesAdded: seq<Route>,
                                       aliases: seq<Option<string>>, key: string)
    ensures key in KeysOf(BackendEntries(h, requireDefault, routesAdded, aliases))
      <==> Writes(h, requireDefault, aliases, key)
    decreases |aliases|
  {
    if aliases != [] {
      var n := |aliases| - 1;
      var init := aliases[..n];
      var alias := aliases[n];
      EntriesKeys(h, requireDefault, routesAdded, init, key);
      var ies := BackendEntries(h, requireDefault, routesAdded, init);
      match BackendKey(h, requireDefault, alias) {
        case None =>
        case Some(k) => EntriesSnoc(ies, k, h.section(alias, routesAdded), key);
      }
      if Writes(h, requireDefault, aliases, key) && BackendKey(h, requireDefault, alias) != Some(key) {
        var i :| 0 <= i < |aliases| && BackendKey(h, requireDefault, aliases[i]) == Some(key);
        assert i < n && init[i] == aliases[i];
      }
      if Writes(h, requireDefault, init, key) {
        var i :| 0 <= i < |init| && BackendKey(h, requireDefault, init[i]) == Some(key);
        assert aliases[i] == init[i];
      }
    }
  }

  /** A written key holds the backend of the last alias writing to it. */
  lemma {:induction false} EntriesLast(h: BackendHelpers, requireDefault: bool, routesAdded: seq<Route>,
                                       aliases: seq<Option<string>>, key: string, i: int)
    requires LastWriter(h, requireDefault, aliases, key, i)
    ensures LastValue(BackendEntries(h, requireDefault, routesAdded, aliases), key)
      == Some(h.section(aliases[i], routesAdded))
    decreases |aliases|
  {
    var n := |aliases| - 1;
    var init := aliases[..n];
    var alias := aliases[n];
    var ies := BackendEntries(h, requireDefault, routesAdded, init);
    if i < n {
      assert LastWriter(h, requireDefault, init, key, i) by {
        forall j | i < j < n ensures init[j] == aliases[j] { }
      }
      EntriesLast(h, requireDefault, routesAdded, init, key, i);
    }
    match BackendKey(h, requireDefault, alias) {
      case None =>
      case Some(k) => EntriesSnoc(ies, k, h.section(alias, routesAdded), key);
    }
  }

  /** The sections hold exactly the written keys, each once, with the last writer's backend. */
  lemma BackendContents(h: BackendHelpers, requireDefault: bool, routesAdded: seq<Route>,
                        aliases: seq<Option<string>>, key: string, i: int)
    ensures Distinct(Keys(BackendSections(h, requireDefault, routesAdded, aliases)))
    ensures key in Keys(BackendSections(h, requireDefault, routesAdded, aliases))
      <==> Writes(h, requireDefault, aliases, key)
    ensures LastWriter(h, requireDefault, aliases, key, i) ==>
      Get(BackendSections(h, requireDefault, routesAdded, aliases), key) == Some(h.section(aliases[i], routesAdded))
  {
    var es := BackendEntries(h, requireDefault, routesAdded, aliases);
    FromEntries(es, key);
    EntriesKeys(h, requireDefault, routesAdded, aliases, key);
    if LastWriter(h, requireDefault, aliases, key, i) {
      EntriesLast(h, requireDefault, routesAdded, aliases, key, i);
    }
  }

  /** Without virtual hosts there is one backend, `default_service`, and only when a default route is required. */
  lemma BackendsWithoutVhosts(h: BackendHelpers, requireDefault: bool, routesAdded: seq<Route>, serviceAliases: seq<string>)
    ensures var cfg := BackendSections(h, requireDefault, routesAdded, BackendAliases(false, serviceAliases));
      && Keys(cfg) == (if requireDefault then [DefaultBackend] else [])
      && (requireDefault ==> Get(cfg, DefaultBackend) == Some(h.section(None, routesAdded)))
  {
    var aliases := BackendAliases(false, serviceAliases);
    var es := BackendEntries(h, requireDefault, routesAdded, aliases);
    assert aliases[..0] == [];
    FromEntries(es, DefaultBackend);
    if requireDefault {
      assert es == [(DefaultBackend, h.section(None, routesAdded))];
      assert KeysOf(es) == [DefaultBackend];
      assert Appended([], KeysOf(es)) == Appended([], []) + [DefaultBackend];
    } else {
      assert KeysOf(es) == [];
    }
  }

  /** `backend SERVICE_<alias>` never collides with `backend default_service`, and names one alias. */
  lemma ServiceBackendKey(a: string, b: string)
    ensures ServiceBackend(a) != DefaultBackend
    ensures ServiceBackend(a) == ServiceBackend(b) ==> a == b
  {
    assert ServiceBackend(a)[8..16] == "SERVICE_";
    assert DefaultBackend[8..16] == "default_";
    if ServiceBackend(a) == ServiceBackend(b) {
      assert a == ServiceBackend(a)[16..] && b == ServiceBackend(b)[16..];
    }
  }

  /** With virtual hosts, a service with a virtual host gets its own `SERVICE_` backend, and no other alias does. */
  lemma ServiceBackendsWithVhosts(h: BackendHelpers, requireDefault: bool, routesAdded: seq<Route>,
                                  serviceAliases: seq<string>, alias: string)
    ensures ServiceBackend(alias) in Keys(BackendSections(h, requireDefault, routesAdded, BackendAliases(true, serviceAliases)))
      <==> alias in serviceAliases && alias != "" && h.hasVirtualHost(alias)
  {
    var aliases := BackendAliases(true, serviceAliases);
    var key := ServiceBackend(alias);
    BackendContents(h, requireDefault, routesAdded, aliases, key, 0);
    if Writes(h, requireDefault, aliases, key) {
      var i :| 0 <= i < |aliases| && BackendKey(h, requireDefault, aliases[i]) == Some(key);
      ServiceBackendKey(alias, alias);
      ServiceBackendKey(serviceAliases[i], alias);
      assert serviceAliases[i] == alias;
    }
    if alias in serviceAliases && alias != "" && h.hasVirtualHost(alias) {
      var i :| 0 <= i < |serviceAliases| && serviceAliases[i] == alias;
      assert BackendKey(h, requireDefault, aliases[i]) == Some(key);
    }
  }

  /**
   * With virtual hosts, `default_service` exists iff some service has no
   * virtual host, or an unnamed alias meets a required default route.
   */
  lemma DefaultBackendWithVhosts(h: BackendHelpers, requireDefault: bool, routesAdded: seq<Route>,
                                 serviceAliases: seq<string>)
    ensures DefaultBackend in Keys(BackendSections(h, requireDefault, routesAdded, BackendAliases(true, serviceAliases)))
      <==> exists a :: a in serviceAliases && ((a == "" && requireDefault) || (a != "" && !h.hasVirtualHost(a)))
  {
    var aliases := BackendAliases(true, serviceAliases);
    BackendContents(h, requireDefault, routesAdded, aliases, DefaultBackend, 0);
    if Writes(h, requireDefault, aliases, DefaultBackend) {
      var i :| 0 <= i < |aliases| && BackendKey(h, requireDefault, aliases[i]) == Some(DefaultBackend);
      var a := serviceAliases[i];
      if a != "" && h.hasVirtualHost(a) {
        ServiceBackendKey(a, a);
      }
      assert a in serviceAliases;
    }
    if exists a :: a in serviceAliases && ((a == "" && requireDefault) || (a != "" && !h.hasVirtualHost(a))) {
      var a :| a in serviceAliases && ((a == "" && requireDefault) || (a != "" && !h.hasVirtualHost(a)));
      var i :| 0 <= i < |serviceAliases| && serviceAliases[i] == a;
      assert BackendKey(h, requireDefault, aliases[i]) == Some(DefaultBackend);
    }
  }
}
