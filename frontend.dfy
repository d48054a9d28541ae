/**
 * The frontend sections (`Haproxy._config_frontend_sections`): with virtual
 * hosts, the virtual-host frontends; without, a default frontend only when a
 * default route is required; in both cases the monitor frontend merged last.
 * The `FrontendHelper` functions are not part of this model and are taken as
 * given functions.
 */
module Frontend {
  import opened Wrappers
  import opened OrderedDict

  type Route = string
  type Sections = ODict<seq<string>>

  /** The helpers this part calls, with the routes and virtual hosts bound. */
  datatype FrontendHelpers = FrontendHelpers(
    /** `FrontendHelper.config_frontend_with_virtual_host(vhosts, ssl_bind_string)`: sections, monitor URI configured. */
    withVirtualHost: Option<string> -> (Sections, bool),
    /** `FrontendHelper.check_require_default_route(routes, routes_added)`. */
    requireDefaultRoute: seq<Route> -> bool,
    /** `FrontendHelper.config_default_frontend(ssl_bind_string)`: sections, monitor URI configured. */
    defaultFrontend: Option<string> -> (Sections, bool),
    /** `FrontendHelper.config_monitor_frontend(monitor_uri_configured)`. */
    monitorFrontend: bool -> Sections)

  /** The frontend sections and the new value of `require_default_route`. */
  datatype FrontendResult = FrontendResult(cfg: Sections, requireDefaultRoute: bool)

  /** The sections chosen before the monitor frontend is merged, and whether they configure the monitor URI. */
  function Branch(h: FrontendHelpers, hasVhosts: bool, sslBind: Option<string>, requireDefault: bool): (Sections, bool) {
    if hasVhosts then h.withVirtualHost(sslBind)
    else if requireDefault then h.defaultFrontend(sslBind)
    else (Empty(), false)
  }

  function FrontendSections(h: FrontendHelpers, hasVhosts: bool, sslBind: Option<string>,
                            routesAdded: seq<Route>, requireBefore: bool): (r: FrontendResult)
    ensures r.requireDefaultRoute == if hasVhosts then requireBefore else h.requireDefaultRoute(routesAdded)
  {
    var requireDefault := if hasVhosts then requireBefore else h.requireDefaultRoute(routesAdded);
    var (cfg, monitorConfigured) := Branch(h, hasVhosts, sslBind, requireDefault);
    FrontendResult(Update(cfg, h.monitorFrontend(monitorConfigured)), requireDefault)
  }

  /**
   * The keys: those of the chosen branch in their order, then the monitor
   * frontend's new keys; the monitor frontend's values win.
   */
  lemma FrontendLayout(h: FrontendHelpers, hasVhosts: bool, sslBind: Option<string>,
                       routesAdded: seq<Route>, requireBefore: bool, k: string)
    ensures var r := FrontendSections(h, hasVhosts, sslBind, routesAdded, requireBefore);
      var (branch, monitorConfigured) := Branch(h, hasVhosts, sslBind, r.requireDefaultRoute);
      var monitor := h.monitorFrontend(monitorConfigured);
      && Keys(r.cfg) == Appended(Keys(branch), Keys(monitor))
      && Get(r.cfg, k) == (if k in Keys(monitor) then LastValue(monitor.entries, k) else Get(branch, k))
  {
    var r := FrontendSections(h, hasVhosts, sslBind, routesAdded, requireBefore);
    var (branch, monitorConfigured) := Branch(h, hasVhosts, sslBind, r.requireDefaultRoute);
    var monitor := h.monitorFrontend(monitorConfigured);
    UpdateKeys(branch.entries, monitor.entries);
    UpdateFind(branch.entries, monitor.entries, k);
  }

  /**
   * With virtual hosts the helper that decides on a default route is never
   * consulted: a cycle that starts without a required default route ends
   * without one, and its frontends are the virtual-host ones followed by the
   * monitor frontend.
   */
  lemma WithVhostsNoDefaultRoute(h: FrontendHelpers, sslBind: Option<string>, routesAdded: seq<Route>)
    ensures var r := FrontendSections(h, true, sslBind, routesAdded, false);
      var (vhostCfg, monitorConfigured) := h.withVirtualHost(sslBind);
      && !r.requireDefaultRoute
      && Keys(r.cfg) == Appended(Keys(vhostCfg), Keys(h.monitorFrontend(monitorConfigured)))
  {
    var (vhostCfg, monitorConfigured) := h.withVirtualHost(sslBind);
    UpdateKeys(vhostCfg.entries, h.monitorFrontend(monitorConfigured).entries);
  }

  /**
   * Without virtual hosts and without a required default route, only the
   * monitor frontend (without a configured monitor URI) remains.
   */
  lemma NoDefaultFrontend(h: FrontendHelpers, sslBind: Option<string>, routesAdded: seq<Route>, requireBefore: bool)
    requires !h.requireDefaultRoute(routesAdded)
    ensures var r := FrontendSections(h, false, sslBind, routesAdded, requireBefore);
      && !r.requireDefaultRoute
      && Keys(r.cfg) == Appended([], Keys(h.monitorFrontend(false)))
  {
    var e: seq<(string, seq<string>)> := [];
    UpdateKeys(e, h.monitorFrontend(false).entries);
    assert KeysOf(e) == [];
  }
}
