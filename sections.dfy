/**
 * The fixed sections at the head of the document: `global`, `defaults` and
 * `listen stats` (`Haproxy._config_global_section`,
 * `_config_defaults_section`, `_config_stats_section`). The statement lists
 * that `ConfigHelper` derives from settings are taken as given.
 */
module Sections {
  import opened OrderedDict
  import opened Strings

  type Statements = seq<string>

  const GlobalTail: Statements := ["pidfile /var/run/haproxy.pid", "user haproxy", "group haproxy", "daemon",
                                   "stats socket /var/run/haproxy.stats level admin"]
  const StatsFixed: Statements := ["stats enable", "timeout connect 10s", "timeout client 1m", "timeout server 1m",
                                   "stats hide-version", "stats realm Haproxy\\ Statistics", "stats uri /"]

  /** `global`: nine fixed statements (log targets, connection limit, pid file, user, daemon, stats socket), then the derived ones. */
  function GlobalSection(rsyslogDestination: string, maxconn: string, bindOptions: Statements,
                         bindCiphers: Statements, extraGlobal: Statements): (cfg: ODict<Statements>)
    ensures Keys(cfg) == ["global"]
    ensures var s := Get(cfg, "global").value;
      |s| == 9 + |bindOptions| + |bindCiphers| + |extraGlobal|
      && s[0] == "log " + rsyslogDestination + " local0" && s[3] == "maxconn " + maxconn
      && s[9..] == bindOptions + bindCiphers + extraGlobal
  {
    var statements := ["log " + rsyslogDestination + " local0",
                       "log " + rsyslogDestination + " local1 notice",
                       "log-send-hostname",
                       "maxconn " + maxconn] + GlobalTail;
    ODict([("global", statements + bindOptions + bindCiphers + extraGlobal)])
  }

  /** `defaults`: balance algorithm, global logging and mode, then options, timeouts and extra settings. */
  function DefaultsSection(balance: string, mode: string, options: Statements, timeouts: Statements,
                           extraDefault: Statements): (cfg: ODict<Statements>)
    ensures Keys(cfg) == ["defaults"]
    ensures var s := Get(cfg, "defaults").value;
      |s| >= 3 && s[..3] == ["balance " + balance, "log global", "mode " + mode]
      && s[3..] == options + timeouts + extraDefault
  {
    ODict([("defaults", ["balance " + balance, "log global", "mode " + mode] + options + timeouts + extraDefault)])
  }

  /** The stats listener's bind argument: the port joined by a space to its extra bind settings, stripped. */
  function StatsBind(statsPort: string, extraBind: map<string, string>): string {
    Strip(statsPort + " " + (if statsPort in extraBind then extraBind[statsPort] else ""))
  }

  /** `listen stats`: bind, HTTP mode, the stats page settings and its credentials. */
  function StatsSection(statsPort: string, extraBind: map<string, string>, statsAuth: string): (cfg: ODict<Statements>)
    ensures Keys(cfg) == ["listen stats"]
    ensures var s := Get(cfg, "listen stats").value;
      |s| == 10 && s[0] == "bind :" + StatsBind(statsPort, extraBind) && s[1] == "mode http"
      && s[9] == "stats auth " + statsAuth
  {
    ODict([("listen stats", ["bind :" + StatsBind(statsPort, extraBind),
                                  "mode http"] + StatsFixed + ["stats auth " + statsAuth])])
  }

  /** Without extra bind settings for its port, the stats listener binds to the stripped port alone. */
  lemma StatsBindWithoutExtra(statsPort: string, extraBind: map<string, string>)
    requires statsPort !in extraBind
    ensures StatsBind(statsPort, extraBind) == Strip(statsPort)
  {
    assert statsPort + " " + "" == statsPort + [' '];
    StripTrailingSpace(statsPort, ' ');
  }
}
