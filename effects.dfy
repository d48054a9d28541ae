/**
 * The calls the configuration builder makes into collaborators whose code is
 * not part of this model: certificate and configuration file writes
 * (`SslHelper.save_certs`, `save_to_file`) and process control
 * (`UpdateHelper.run_reload`, `UpdateHelper.run_once`). The model records
 * which calls are made, in order, with their arguments.
 */
module Effects {
  /** The two certificate stores: `CERT_DIR` for leaf certificates, `CACERT_DIR` for CA certificates. */
  datatype CertDir = CertDir | CaCertDir

  datatype Call =
    | SaveCerts(dir: CertDir, certs: seq<string>)
    | SaveConfig(text: string)
    | RunReload
    | RunOnce
}
