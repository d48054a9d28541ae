/**
 * The reload decision (`Haproxy._update_haproxy`): compare the new
 * configuration text with the last one kept in the class-level `cls_cfg`
 * and decide which files to write and whether to reload the balancer.
 * Remote mode is when the service URI, the container URI and the API
 * credentials are all set; otherwise the builder runs in local mode.
 */
module Reload {
  import opened Wrappers
  import opened Effects

  /** The text kept for the next cycle and the collaborator calls made, in order. */
  datatype Decision = Decision(lastCfg: Option<string>, calls: seq<Call>)

  /**
   * `_update_haproxy(cfg)` as written; `saveOk` is what `save_to_file`
   * returns. In remote mode a changed text is kept before it is written, and
   * a reload follows only a successful write; an unchanged text reloads only
   * when certificates changed. Local mode always writes and runs once.
   */
  function Decide(remote: bool, lastCfg: Option<string>, cfg: string, sslUpdated: bool, saveOk: bool): (d: Decision)
    ensures !remote ==> d == Decision(lastCfg, [SaveConfig(cfg), RunOnce])
    ensures remote ==> d.lastCfg == Some(cfg)
    ensures remote ==> (SaveConfig(cfg) in d.calls <==> lastCfg != Some(cfg))
    ensures remote ==> (RunReload in d.calls <==> (lastCfg != Some(cfg) && saveOk) || (lastCfg == Some(cfg) && sslUpdated))
    ensures remote ==> RunOnce !in d.calls && |d.calls| <= 2
  {
    if remote then
      if lastCfg != Some(cfg) then
        Decision(Some(cfg), [SaveConfig(cfg)] + (if saveOk then [RunReload] else []))
      else if sslUpdated then
        Decision(lastCfg, [RunReload])
      else
        Decision(lastCfg, [])
    else
      Decision(lastCfg, [SaveConfig(cfg), RunOnce])
  }

  /** A second remote cycle with the same text and no certificate change does nothing at all. */
  lemma Idempotent(lastCfg: Option<string>, cfg: string, sslUpdated: bool, saveOk: bool, saveOk2: bool)
    ensures var first := Decide(true, lastCfg, cfg, sslUpdated, saveOk);
      Decide(true, first.lastCfg, cfg, false, saveOk2) == Decision(first.lastCfg, [])
  {
  }

  /** An unchanged text with changed certificates reloads without writing the configuration. */
  lemma CertificateOnlyChangeReloads(cfg: string, saveOk: bool)
    ensures Decide(true, Some(cfg), cfg, true, saveOk) == Decision(Some(cfg), [RunReload])
  {
  }

  /**
   * The text is kept before the write is known to have succeeded: after a
   * failed write, the next cycle with the same text and no certificate change
   * neither writes nor reloads, so the configuration is never written.
   */
  lemma FailedSaveNeverRetried(lastCfg: Option<string>, cfg: string, sslUpdated: bool, saveOk2: bool)
    requires lastCfg != Some(cfg)
    ensures var first := Decide(true, lastCfg, cfg, sslUpdated, false);
      RunReload !in first.calls && Decide(true, first.lastCfg, cfg, false, saveOk2).calls == []
  {
  }

  /** `_update_haproxy` with the text kept only once it has been written. */
  function DecideCommitAfterSave(remote: bool, lastCfg: Option<string>, cfg: string, sslUpdated: bool, saveOk: bool): (d: Decision)
    ensures remote ==> (d.lastCfg == Some(cfg) <==> lastCfg == Some(cfg) || saveOk)
    ensures remote ==> (SaveConfig(cfg) in d.calls <==> lastCfg != Some(cfg))
  {
    if remote && lastCfg != Some(cfg) then
      Decision(if saveOk then Some(cfg) else lastCfg, [SaveConfig(cfg)] + (if saveOk then [RunReload] else []))
    else
      Decide(remote, lastCfg, cfg, sslUpdated, saveOk)
  }

  /** Keeping the text only after a successful write retries a failed write on the next cycle, and is still idempotent once it succeeds. */
  lemma CommitAfterSaveRetries(lastCfg: Option<string>, cfg: string, sslUpdated: bool, saveOk2: bool)
    requires lastCfg != Some(cfg)
    ensures var failed := DecideCommitAfterSave(true, lastCfg, cfg, sslUpdated, false);
      SaveConfig(cfg) in DecideCommitAfterSave(true, failed.lastCfg, cfg, false, saveOk2).calls
    ensures var saved := DecideCommitAfterSave(true, lastCfg, cfg, sslUpdated, true);
      DecideCommitAfterSave(true, saved.lastCfg, cfg, false, saveOk2).calls == []
  {
  }
}
