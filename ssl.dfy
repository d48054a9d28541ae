/**
 * TLS certificate change detection and the bind-string suffix
 * (`Haproxy._config_ssl`, `_config_ssl_certs`, `_config_ssl_cacerts`).
 * The state the steps read and write is the class-level certificate list
 * `cls_certs` (kept across cycles) and the per-cycle flag `ssl_updated`.
 */
module Ssl {
  import opened Wrappers

  type Cert = string

  /** Bind fragment when leaf certificates are present. */
  const LeafBind := "ssl crt /certs/"
  /** Bind fragment when a CA certificate is configured. */
  const CaBind := " ca-file /cacerts/cert0.pem verify required"

  /** `set(certs)`. */
  function AsSet(certs: seq<Cert>): set<Cert> {
    set c | c in certs
  }

  /** `set(a) != set(b)`: the lists differ as sets, whatever their order and repetitions. */
  predicate Differ(a: seq<Cert>, b: seq<Cert>) {
    AsSet(a) != AsSet(b)
  }

  datatype CertState = CertState(stored: seq<Cert>, updated: bool)

  /** A step's bind fragment, the state after it, and whether it wrote the certificates out. */
  datatype StepResult = StepResult(bind: string, state: CertState, saved: bool)

  /**
   * One certificate step, given the list it collected and its bind fragment:
   * a non-empty list that differs as a set from the stored one replaces it and
   * raises the flag; the fragment is produced whenever the list is non-empty.
   */
  function Step(certs: seq<Cert>, fragment: string, st: CertState): (r: StepResult)
    ensures r.bind == (if certs != [] then fragment else "")
    ensures r.saved <==> certs != [] && Differ(certs, st.stored)
    ensures r.state == (if r.saved then CertState(certs, true) else st)
  {
    if certs == [] then StepResult("", st, false)
    else if Differ(certs, st.stored) then StepResult(fragment, CertState(certs, true), true)
    else StepResult(fragment, st, false)
  }

  /** Reordering or repeating the stored certificates never counts as a change. */
  lemma SameSetNoUpdate(certs: seq<Cert>, fragment: string, st: CertState)
    requires forall c :: c in certs <==> c in st.stored
    ensures !Step(certs, fragment, st).saved && Step(certs, fragment, st).state == st
  {
    assert AsSet(certs) == AsSet(st.stored);
  }

  /** Running a step again with the list it just stored changes nothing and writes nothing. */
  lemma StepStable(certs: seq<Cert>, fragment: string, st: CertState)
    ensures var again := Step(certs, fragment, Step(certs, fragment, st).state);
      !again.saved && again.state == Step(certs, fragment, st).state
  {
    var first := Step(certs, fragment, st);
    if certs != [] {
      assert first.state.stored == certs || !Differ(certs, st.stored);
      assert !Differ(certs, first.state.stored);
    }
  }

  /** The leaf list: `DEFAULT_SSL_CERT` if set, then the extra certificates, the default-route and the per-service ones. */
  function LeafCerts(defaultCert: Cert, extra: seq<Cert>, specDefault: seq<Cert>, specCerts: seq<Cert>): (certs: seq<Cert>)
    ensures certs == [] <==> defaultCert == "" && extra == [] && specDefault == [] && specCerts == []
    ensures forall c :: c in certs <==> (c == defaultCert && c != "") || c in extra || c in specDefault || c in specCerts
  {
    (if defaultCert != "" then [defaultCert] else []) + extra + specDefault + specCerts
  }

  /** The CA list: `DEFAULT_CA_CERT` alone, when it is set. */
  function CaCerts(defaultCa: Cert): (certs: seq<Cert>)
    ensures certs != [] <==> defaultCa != ""
  {
    if defaultCa != "" then [defaultCa] else []
  }

  /** What `_config_ssl` leaves behind: the bind string it built, the state, and which stores it wrote. */
  datatype SslResult = SslResult(bind: string, state: CertState, savedLeaf: bool, savedCa: bool)

  /**
   * `_config_ssl` as written: the leaf step, then the CA step, which compares
   * the CA list against the same stored list the leaf step may just have
   * replaced, and replaces it in turn.
   */
  function SslCycle(leaf: seq<Cert>, ca: seq<Cert>, st: CertState): (r: SslResult)
    ensures r.bind == (if leaf != [] then LeafBind else "") + (if ca != [] then CaBind else "")
    ensures r.bind != "" <==> leaf != [] || ca != []
  {
    var l := Step(leaf, LeafBind, st);
    var c := Step(ca, CaBind, l.state);
    SslResult(l.bind + c.bind, c.state, l.saved, c.saved)
  }

  /** `if ssl_bind_string: self.ssl_bind_string = ssl_bind_string`. */
  function NewBindString(current: Option<string>, bind: string): (r: Option<string>)
    ensures r == if bind != "" then Some(bind) else current
  {
    if bind != "" then Some(bind) else current
  }

  /**
   * The bind string a cycle leaves: with no certificate at all the previous
   * one stays (none, in a fresh cycle); otherwise it is a non-empty suffix
   * naming the leaf directory when there are leaf certificates and ending in
   * the CA clause when there is a CA certificate.
   */
  lemma BindStringAfterCycle(current: Option<string>, leaf: seq<Cert>, ca: seq<Cert>, st: CertState)
    ensures var b := NewBindString(current, SslCycle(leaf, ca, st).bind);
      && (leaf == [] && ca == [] ==> b == current)
      && (current == None ==> (b == None <==> leaf == [] && ca == []))
      && (leaf != [] || ca != [] ==> b.Some? && b.value != "")
      && (leaf != [] && ca == [] ==> b == Some(LeafBind))
      && (leaf == [] && ca != [] ==> b == Some(CaBind))
      && (leaf != [] && ca != [] ==> b == Some(LeafBind + CaBind))
  {
    assert LeafBind + "" == LeafBind;
    assert "" + CaBind == CaBind;
  }

  /** With no CA list, a cycle is the leaf step alone: changes are detected exactly as set differences. */
  lemma LeafOnlyCycle(leaf: seq<Cert>, st: CertState)
    ensures SslCycle(leaf, [], st).state == Step(leaf, LeafBind, st).state
    ensures SslCycle(leaf, [], st).state.updated <==> st.updated || (leaf != [] && Differ(leaf, st.stored))
    ensures !SslCycle(leaf, [], st).savedCa
  {
  }

  /**
   * The shared list makes the flag rise on every cycle: when both lists are
   * present and differ as sets, a cycle that starts from what the previous
   * cycle stored (with the flag reset, as each cycle builds a new object)
   * writes both stores again and raises the flag, although nothing changed.
   */
  lemma SharedStoreUpdatesEveryCycle(leaf: seq<Cert>, ca: seq<Cert>, st: CertState)
    requires leaf != [] && ca != [] && Differ(leaf, ca)
    ensures var first := SslCycle(leaf, ca, st);
      var second := SslCycle(leaf, ca, CertState(first.state.stored, false));
      second.state.updated && second.savedLeaf && second.savedCa
  {
    var first := SslCycle(leaf, ca, st);
    var l := Step(leaf, LeafBind, st);
    if l.saved {
      assert l.state.stored == leaf;
    } else {
      assert AsSet(l.state.stored) == AsSet(leaf);
    }
    assert first.state.stored == ca;
  }

  /** The store kept separately for leaf and CA certificates. */
  datatype SplitCertState = SplitCertState(leaf: seq<Cert>, ca: seq<Cert>, updated: bool)

  /** `_config_ssl` with the CA step comparing against its own stored list. */
  function SslCycleSeparate(leaf: seq<Cert>, ca: seq<Cert>, st: SplitCertState): (r: SplitCertState)
    ensures r.updated <==> st.updated || (leaf != [] && Differ(leaf, st.leaf)) || (ca != [] && Differ(ca, st.ca))
  {
    var l := Step(leaf, LeafBind, CertState(st.leaf, st.updated));
    var c := Step(ca, CaBind, CertState(st.ca, l.state.updated));
    SplitCertState(l.state.stored, c.state.stored, c.state.updated)
  }

  /** With separate stores, a cycle that repeats the previous cycle's certificates raises no flag. */
  lemma SeparateCycleStable(leaf: seq<Cert>, ca: seq<Cert>, st: SplitCertState)
    ensures var first := SslCycleSeparate(leaf, ca, st);
      !SslCycleSeparate(leaf, ca, SplitCertState(first.leaf, first.ca, false)).updated
  {
    StepStable(leaf, LeafBind, CertState(st.leaf, st.updated));
    var l := Step(leaf, LeafBind, CertState(st.leaf, st.updated));
    StepStable(ca, CaBind, CertState(st.ca, l.state.updated));
  }
}
