# HAProxy configuration builder — a Dafny model

This project models the core of the configuration builder in `haproxy/haproxycfg.py`: the class `Haproxy`.
Each cycle builds a fresh `Haproxy` object. The object:

- decides the TLS bind suffix and whether certificates changed;
- assembles an insertion-ordered document of HAProxy sections in a fixed order: `global`, `defaults`, `listen stats`, the basic-auth userlist, the TCP listeners, the frontends, the backends;
- renders the document and decides whether to write the configuration file and reload the balancer.

The class-level attributes that survive between cycles become a `Shared` object:

- `cls_cfg`, the last configuration text;
- `cls_certs`, the last certificate list stored;
- a log of the collaborator calls made (`save_certs`, `save_to_file`, `run_reload`, `run_once`).

The per-cycle attributes (`ssl_bind_string`, `ssl_updated`, `routes_added`, `require_default_route`) are fields of the class `HaproxyCfg.Haproxy`. Its methods change them in place, as the source does.

Modules, one per file:

- `OrderedDict` (ordered_dict.dfy): Python's `OrderedDict` as a list of entries.
  - `d[k] = v` keeps a present key's position and replaces its value.
  - `d.update(e)` writes `e`'s entries in order.
  - `Assemble` is a fold of `update` over a list of parts.
- `Strings` (strings.dfy): `str.strip()` with Python's whitespace set, and `sep.join`.
- `Userlist` (userlist.dfy): the `HTTP_BASIC_AUTH` parser and the loop that builds the userlist section.
  - `Encode`, the inverse the setting's format implies, gives a round trip.
- `Ssl` (ssl.dfy): the two certificate steps as functions, and the bind suffix.
- `Reload` (reload.dfy): the reload decision of `_update_haproxy`.
- `Sections` (sections.dfy): the fixed `global`, `defaults` and `listen stats` sections.
- `Tcp`, `Frontend`, `Backend` (tcp.dfy, frontend.dfy, backend.dfy): the naming and layout policy around the helper modules. The helper modules are taken as given functions.
- `HaproxyCfg` (haproxy.dfy): the classes `Shared` and `Haproxy`, whose methods are proved against the functions above.
- `Effects` (effects.dfy) and `Wrappers` (wrappers.dfy): the collaborator calls and `Option`.

## Model

| member | source | states |
|---|---|---|
| OrderedDict.SetEntries | haproxy/haproxycfg.py:220 | `d[k] = v`: a new key goes last and a present key keeps its place; `k` now holds `v`; every other key keeps its value |
| OrderedDict.UpdateKeys | haproxy/haproxycfg.py:72-79 | after `d.update(e)` (`Update`, the fold `UpdateEntries` of `d[k] = v` over `e`) the keys are `d`'s keys followed by `e`'s new keys, each at its first insertion |
| OrderedDict.UpdateFind | haproxy/haproxycfg.py:72-79 | after `d.update(e)` a key holds the last value `e` wrote for it, or else `d`'s value |
| OrderedDict.UpdateSnoc | haproxy/haproxycfg.py:218-220 | writing one more entry through `update` is one more `d[k] = v` |
| OrderedDict.AssembleKeys | haproxy/haproxycfg.py:72-79 | for `Assemble`, the parts merged by successive `update` calls into an empty dictionary, the document's keys are all parts' keys in part order, each once, at its first insertion |
| OrderedDict.AssemblePrefix | haproxy/haproxycfg.py:72-79 | later parts never reorder the keys earlier parts placed |
| OrderedDict.AssembleGet | haproxy/haproxycfg.py:72-79 | a key's value in the document is the one written by the last part that has that key |
| OrderedDict.FromEntries | haproxy/haproxycfg.py:218-220 | a dictionary built by successive writes has distinct keys, the written ones in first-write order, each with its last written value |
| OrderedDict.LastValueAt | haproxy/haproxycfg.py:218-220 | the last write to a key is the value that stays |
| OrderedDict.AppendedDistinct | haproxy/haproxycfg.py:72-79 | inserting keys never introduces a duplicate |
| Strings.TrimLeft | haproxy/haproxycfg.py:197 | `lstrip()` never lengthens, and what it keeps does not start with whitespace |
| Strings.TrimRight | haproxy/haproxycfg.py:197 | `rstrip()` never lengthens, and what it keeps does not end with whitespace |
| Strings.StripSpec | haproxy/haproxycfg.py:197 | `Strip`, `rstrip` after `lstrip`: `strip()` is empty iff the text is all whitespace; otherwise it starts and ends with a non-space |
| Strings.TrimLeftSuffix | haproxy/haproxycfg.py:197 | `lstrip()` keeps a suffix and drops only whitespace |
| Strings.TrimRightPrefix | haproxy/haproxycfg.py:197 | `rstrip()` keeps a prefix and drops only whitespace |
| Strings.StripWithin | haproxy/haproxycfg.py:197-198 | `strip()` only removes characters, so a colon after stripping was in the piece |
| Strings.StripTrailingSpace | haproxy/haproxycfg.py:163-164 | trailing whitespace never survives `strip()` |
| Userlist.NextSeparator | haproxy/haproxycfg.py:194 | the first comma at or after a position that no backslash precedes, or the end |
| Userlist.SplitAuth | haproxy/haproxycfg.py:194 | `re.split(r'(?<!\\),', s)`: the pieces joined by commas give back `s`; no piece holds an unescaped comma; every piece but the last ends without a backslash |
| Userlist.SplitJoin | haproxy/haproxycfg.py:194 | the split is unique: splitting a join of such pieces gives the pieces back |
| Userlist.Escape | haproxy/haproxycfg.py:200-201 | the escaping the format implies: every comma of the result is preceded by a backslash; colons, the last character and an empty input are kept |
| Userlist.UnescapeEscape | haproxy/haproxycfg.py:200-201 | `Unescape`, the model of `replace("\,", ",")`, undoes the escaping |
| Userlist.UnescapeUnchanged | haproxy/haproxycfg.py:200-201 | `replace("\,", ",")` leaves a field without a comma, or without a backslash, unchanged |
| Userlist.EscapeConcat | haproxy/haproxycfg.py:200-201 | escaping works character by character: it distributes over concatenation |
| Userlist.IndexOf | haproxy/haproxycfg.py:198 | the first occurrence of a character, or the end |
| Userlist.SplitAtFirst | haproxy/haproxycfg.py:198-199 | `split(":", 1)` gives two terms iff there is a colon; the first term holds no colon, so the password may hold colons |
| Userlist.SplitAtFirstOf | haproxy/haproxycfg.py:198 | splitting `before + ":" + after` with no colon in `before` gives `(before, after)` |
| Userlist.UserLine | haproxy/haproxycfg.py:197-202 | a piece yields a statement iff it is non-empty after stripping and contains a colon |
| Userlist.UserLinesSnoc | haproxy/haproxycfg.py:196-203 | `UserLines`, the statements the loop collects: each piece adds its statement, if any, after those of the earlier pieces |
| Userlist.UserlistSection | haproxy/haproxycfg.py:190-206 | no section, or exactly `userlist haproxy_userlist` with a non-empty statement list |
| Userlist.ConfigUserlistSection | haproxy/haproxycfg.py:190-206 | the loop over the pieces builds exactly the section `UserlistSection` describes |
| Userlist.EncodeParse | haproxy/haproxycfg.py:194-202 | round trip: for pairs the format can carry, parsing their encoding gives one statement per pair, in order, with the original fields |
| Userlist.UserlistOfEncoded | haproxy/haproxycfg.py:190-206 | a non-empty encoded list of pairs yields the section with exactly their statements |
| Userlist.NoUserLines | haproxy/haproxycfg.py:196-204 | pieces that yield no statement produce no section content |
| Userlist.TwoUsersEscapedComma | haproxy/haproxycfg.py:190-206 | two pairs, the second password written with `\,`: exactly two statements, the comma decoded into the second password (the shape of `alice:secret,bob:pw\,2`, which gives bob the password `pw,2`) |
| Userlist.SectionOfTwo | haproxy/haproxycfg.py:190-206 | two pairs the format can carry, joined by a comma, yield exactly their two statements |
| Userlist.UserlistWithoutColon | haproxy/haproxycfg.py:190-206 | a setting without a colon yields no userlist section |
| Ssl.Step | haproxy/haproxycfg.py:117-123 | a step replaces the stored list and raises the flag iff its list is non-empty and differs from the stored list as a set; its fragment appears iff the list is non-empty |
| Ssl.SameSetNoUpdate | haproxy/haproxycfg.py:118 | reordering or repeating the stored certificates is never a change |
| Ssl.StepStable | haproxy/haproxycfg.py:117-123 | repeating a step with the list it just stored writes nothing and changes nothing |
| Ssl.LeafCerts | haproxy/haproxycfg.py:111-116 | the leaf list is empty iff every source is empty, and holds exactly the certificates of its sources |
| Ssl.CaCerts | haproxy/haproxycfg.py:128-130 | the CA list is non-empty iff `DEFAULT_CA_CERT` is set |
| Ssl.SslCycle | haproxy/haproxycfg.py:102-138 | the bind suffix is the leaf fragment, if any, followed by the CA fragment, if any; it is non-empty iff either list is |
| Ssl.BindStringAfterCycle | haproxy/haproxycfg.py:102-107 | after a cycle, `ssl_bind_string` (kept by `NewBindString`) is unchanged when no certificate is configured, so a fresh cycle leaves it `None` exactly then; otherwise it is non-empty: `ssl crt /certs/`, the CA clause, or both in that order |
| Ssl.LeafOnlyCycle | haproxy/haproxycfg.py:109-124 | without a CA certificate, the flag rises exactly on a set difference in the leaf list |
| Ssl.SharedStoreUpdatesEveryCycle | haproxy/haproxycfg.py:118-135 | as written: with leaf and CA lists that differ, every later cycle writes both stores again and raises the flag |
| Ssl.SslCycleSeparate | haproxy/haproxycfg.py:118-135 | with separate stores, the flag rises iff the leaf or the CA list changed as a set |
| Ssl.SeparateCycleStable | haproxy/haproxycfg.py:118-135 | with separate stores, repeating the certificates of the previous cycle raises no flag |
| Reload.Decide | haproxy/haproxycfg.py:84-100 | remote mode: a changed text is kept and written, and a reload follows iff the write succeeded; an unchanged text reloads iff certificates changed; local mode always writes and runs once and leaves `cls_cfg` alone |
| Reload.Idempotent | haproxy/haproxycfg.py:84-96 | a second remote cycle with the same text and no certificate change does nothing |
| Reload.CertificateOnlyChangeReloads | haproxy/haproxycfg.py:91-93 | an unchanged text with changed certificates reloads without writing |
| Reload.FailedSaveNeverRetried | haproxy/haproxycfg.py:86-90 | as written: after a failed write, the next cycle with the same text neither writes nor reloads |
| Reload.DecideCommitAfterSave | haproxy/haproxycfg.py:86-90 | with the text kept only after a successful write: it is kept iff it was already kept or the write succeeded |
| Reload.CommitAfterSaveRetries | haproxy/haproxycfg.py:86-90 | with the text kept only after a successful write, a failed write is retried next cycle, and the cycle after a success is a no-op |
| Sections.GlobalSection | haproxy/haproxycfg.py:140-158 | one key `global`: nine fixed statements, the log target first and `maxconn` fourth, then the derived ones in order |
| Sections.DefaultsSection | haproxy/haproxycfg.py:176-188 | one key `defaults`: balance, `log global`, mode, then options, timeouts and extra settings |
| Sections.StatsSection | haproxy/haproxycfg.py:160-174 | one key `listen stats` with ten statements: the stripped bind first, `mode http` second, the credentials last |
| Sections.StatsBindWithoutExtra | haproxy/haproxycfg.py:163-164 | without extra bind settings for the stats port, the bind is the stripped port alone |
| Tcp.TcpSectionLayout | haproxy/haproxycfg.py:223-238 | `BuildTcpSection`, one call of `get_tcp_section`: the section's statements: the stripped bind, `mode tcp`, balance, options, extra settings, routes; keyed by the parsed port |
| Tcp.SectionKeyInjective | haproxy/haproxycfg.py:220 | different port numbers give different `listen port_<N>` keys |
| Tcp.TcpKeys | haproxy/haproxycfg.py:208-221 | for `TcpSections`, the writes of the loop in the order the tokens are visited, the keys are distinct, and `listen port_<N>` is present iff some visited token has port number `N` |
| Tcp.TcpLastWriteWins | haproxy/haproxycfg.py:218-220 | tokens sharing a port number share one section, and the last one visited wins |
| Tcp.TcpDistinctPorts | haproxy/haproxycfg.py:218-220 | with distinct port numbers, one section per token in visiting order |
| Tcp.TcpSectionsSnoc | haproxy/haproxycfg.py:218-220 | visiting one more token is one more write of its section |
| Frontend.WithVhostsNoDefaultRoute | haproxy/haproxycfg.py:244-254 | with virtual hosts, a cycle starting without a required default route ends without one, and the frontends are the virtual-host ones followed by the monitor frontend's new keys |
| Frontend.FrontendLayout | haproxy/haproxycfg.py:240-255 | for the branch `Branch` chooses (virtual hosts, a default frontend, or nothing), the keys are the chosen branch's followed by the monitor frontend's new keys, and the monitor frontend's values win |
| Frontend.NoDefaultFrontend | haproxy/haproxycfg.py:246-254 | without virtual hosts and without a required default route, only the monitor frontend remains |
| Backend.BackendKey | haproxy/haproxycfg.py:271-278 | an alias writes nothing iff it is unnamed and no default route is required; it writes `backend default_service` iff it is unnamed with a required default route or named without a virtual host; any other key is its own `backend SERVICE_<alias>` |
| Backend.SectionsSnoc | haproxy/haproxycfg.py:268-278 | visiting one more alias writes its backend under its key, if it has one |
| Backend.EntriesKeys | haproxy/haproxycfg.py:268-278 | among `BackendEntries`, the writes of the loop (at most one per alias), a key is written iff some alias writes to it |
| Backend.EntriesLast | haproxy/haproxycfg.py:268-278 | a written key holds the backend of the last alias writing to it |
| Backend.BackendContents | haproxy/haproxycfg.py:268-279 | `BackendSections`, the writes of the loop in alias order: the sections hold exactly the written keys, each once, with the last writer's backend |
| Backend.BackendsWithoutVhosts | haproxy/haproxycfg.py:263-273 | without virtual hosts only the alias `None` is visited (`BackendAliases`), so `backend default_service` exists iff a default route is required, and holds the backend for `None` |
| Backend.ServiceBackendKey | haproxy/haproxycfg.py:273-278 | `backend SERVICE_<alias>` never equals `backend default_service` and names one alias |
| Backend.ServiceBackendsWithVhosts | haproxy/haproxycfg.py:266-276 | with virtual hosts the service aliases are visited (`BackendAliases`), and `backend SERVICE_<a>` exists iff `a` is a non-empty alias whose service has a virtual host |
| Backend.DefaultBackendWithVhosts | haproxy/haproxycfg.py:271-278 | with virtual hosts, `backend default_service` exists iff some alias lacks a virtual host, or an empty alias meets a required default route |
| HaproxyCfg.HeadAllKeys | haproxy/haproxycfg.py:73-75 | in `DocumentParts`, the parts in `update`'s order, the fixed parts contribute `global`, `defaults`, `listen stats`, in that order |
| HaproxyCfg.MergedDocument | haproxy/haproxycfg.py:72-79 | merging the seven parts one after the other is assembling them, and the result starts with the three fixed keys, each once |
| HaproxyCfg.DocumentHead | haproxy/haproxycfg.py:72-79 | whatever follows, the document starts with `global`, `defaults`, `listen stats`, each once |
| HaproxyCfg.DocumentMembers | haproxy/haproxycfg.py:72-79 | a key is in the document iff it is a fixed key or a key of some later part |
| HaproxyCfg.EnumeratingStep | haproxy/haproxycfg.py:218 | visiting one more token of the set keeps every token visited at most once |
| HaproxyCfg.Shared.constructor | haproxy/haproxycfg.py:25-28 | before the first cycle there is no kept text, no stored certificate and no call |
| HaproxyCfg.Haproxy.constructor | haproxy/haproxycfg.py:34-44 | a cycle starts with no bind suffix, no certificate change, no routes consumed and no default route required |
| HaproxyCfg.Haproxy.ConfigSslCerts | haproxy/haproxycfg.py:109-124 | the leaf step on the shared store: new fragment, store, flag and `save_certs(CERT_DIR, …)` call as `Ssl.Step` says |
| HaproxyCfg.Haproxy.ConfigSslCacerts | haproxy/haproxycfg.py:126-138 | the CA step on the same shared store, with `save_certs(CACERT_DIR, …)` |
| HaproxyCfg.Haproxy.ConfigSsl | haproxy/haproxycfg.py:102-107 | the new bind suffix, store, flag and calls are those of `Ssl.SslCycle` |
| HaproxyCfg.Haproxy.GetTcpSection | haproxy/haproxycfg.py:223-238 | returns the section and port number of `Tcp.BuildTcpSection`, and `routes_added` becomes the routes it consumed |
| HaproxyCfg.Haproxy.ConfigTcpSections | haproxy/haproxycfg.py:208-221 | without `tcp_ports`, no section and nothing changed; otherwise every port token is visited once, the document is `Tcp.TcpSections` of the order taken, and `routes_added` is the last section's (`Tcp.RoutesAddedAfter`, as each call overwrites it at line 227) |
| HaproxyCfg.Haproxy.ConfigFrontendSections | haproxy/haproxycfg.py:240-255 | the frontend sections and new `require_default_route` of `Frontend.FrontendSections` |
| HaproxyCfg.Haproxy.ConfigBackendSections | haproxy/haproxycfg.py:257-279 | the loop over the aliases builds exactly `Backend.BackendSections` |
| HaproxyCfg.Haproxy.UpdateHaproxy | haproxy/haproxycfg.py:84-100 | the kept text and the calls appended are those of `Reload.Decide` |
| HaproxyCfg.Haproxy.MergeRouted | haproxy/haproxycfg.py:77-79 | the TCP, frontend and backend sections merged onto the document, with the instance state they leave behind |
| HaproxyCfg.Haproxy.MergeSections | haproxy/haproxycfg.py:72-79 | the document starts with the three fixed keys, each once, and is the assembly of the seven parts in `update`'s order |
| HaproxyCfg.RunHaproxy | haproxy/haproxycfg.py:19-21 | one cycle on a fresh object: the bind string is set iff some certificate is configured; with virtual hosts no default route is required; the document, store, kept text and calls are those `Update` states from the initial per-cycle state |
| HaproxyCfg.Haproxy.Update | haproxy/haproxycfg.py:69-82 | one cycle: the SSL cycle's state and calls, then the merged document in section order, then the reload decision on its rendering |

## Left out

- `_initialize` and `LINKED_CONTAINER_CACHE` (haproxy/haproxycfg.py:46-67) fetch remote objects and discover links over the network. The model takes their result, the service topology, as the constructor's `specs` argument. `cls_linked_services` is only assigned there, and `cls_service_name_match` is never used in this file.
- `HAPROXY_SERVICE_URI`, `HAPROXY_CONTAINER_URI` and `API_AUTH` are reduced to the one fact the core reads from them: whether all three are set (`Settings.remote`).
- The helper modules are taken as given functions, without inventing their behaviour: `TcpHelper`, `FrontendHelper`, `BackendHelper`, `ConfigHelper`, `SslHelper.get_extra_ssl_certs`, `get_bind_string`, `get_service_attribute`, the `Specs` queries and `prettify`.
- `save_to_file`, `SslHelper.save_certs`, `UpdateHelper.run_reload` and `UpdateHelper.run_once` write files or control processes. They become entries in the call log; the result of `save_to_file` is the parameter `saveOk`.
- The process handle `cls_process` is not kept: only the fact that a reload was started is logged.
- The order in which `set(tcp_ports)` is visited is unspecified in Python. `ConfigTcpSections` picks tokens nondeterministically and returns the order taken as a ghost value; no sorted order is claimed.
- Logging is left out.
- The fixed statement lists of `global` and `defaults` are modelled as fixed text, and the statement lists `ConfigHelper` derives from settings as given lists.
- `HaproxyCfg.Haproxy.MergeSections` and `HaproxyCfg.Haproxy.MergeRouted` are not methods of the source. They are the body of `update` between `_config_ssl` and `prettify`, split out so each proof stays small.
- Python's `str.strip()` is modelled with its whitespace set written out. Case and Unicode normalisation play no part here.
- Concurrency is left out: one cycle runs at a time.

## Findings

| source | as written | input that shows it | evidently intended | confidence | as-written member | corrected member |
|---|---|---|---|---|---|---|
| haproxy/haproxycfg.py:118-120, 132-134 | the CA step compares the CA list with `cls_certs`, the same field the leaf step has just overwritten with the leaf list, then overwrites it with the CA list | `DEFAULT_SSL_CERT = "a"`, `DEFAULT_CA_CERT = "b"`, two cycles with the same settings: the second cycle still finds a difference in both steps, writes both stores and raises `ssl_updated` | a separate stored list per store, so unchanged certificates raise no flag | medium, not executed | Ssl.SharedStoreUpdatesEveryCycle | Ssl.SeparateCycleStable |
| haproxy/haproxycfg.py:86-90 | `cls_cfg` is set to the new text before `save_to_file` reports success | a remote cycle whose write fails, followed by a cycle with the same text and no certificate change: the second cycle neither writes nor reloads, so the file is never written | keep the text only after a successful write, so a failed write is retried | medium, not executed | Reload.FailedSaveNeverRetried | Reload.CommitAfterSaveRetries |

The class `HaproxyCfg.Haproxy` keeps the behaviour as written in both cases. The corrected definitions, `Ssl.SslCycleSeparate` and `Reload.DecideCommitAfterSave`, stand beside it with their properties proved.

In the second row, a failed write leaves the configuration file stale until the generated text changes.
