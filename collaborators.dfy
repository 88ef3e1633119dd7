/**
 * The foreign calls the strategy makes, as total functions of their arguments.
 * A run reaches each call site at most once, and the Helm calls, which both
 * installers make, also take the side whose installer makes them. So every
 * possible answer of one run (a fresh key pair, a cluster that happens to fail
 * on one side only) is some choice of these functions.
 */
module Collaborators {
  import opened Wrappers
  import opened Task

  /** The installer a Helm call comes from: installOnSource or installOnDest. */
  datatype Side = SourceSide | DestSide

  datatype KeyPair = KeyPair(publicKey: string, privateKey: string)

  /** Opaque handle to a Helm action configuration. */
  datatype ActionConfig = ActionConfig(handle: nat)

  /** Opaque handle to the merged chart values; their merge semantics are not modelled. */
  datatype Values = Values(handle: nat)

  /**
   * The fields of a Helm install action that the strategy sets, as `install.Run`
   * sees them. `timeout` is a Go `time.Duration`, in nanoseconds.
   */
  datatype InstallSettings = InstallSettings(
    config: ActionConfig,
    namespace: string,
    releaseName: string,
    wait: bool,
    timeout: int)

  datatype Collaborators = Collaborators(
    /** ssh.CreateSSHKeyPair */
    createSSHKeyPair: string -> Result<KeyPair>,
    /** initHelmActionConfig */
    initHelmActionConfig: (Side, PvcInfo) -> Result<ActionConfig>,
    /** getMergedHelmValues */
    getMergedHelmValues: (Side, seq<string>, Options) -> Result<Values>,
    /** (*action.Install).Run; the returned release is not used */
    installRun: (Side, InstallSettings, Chart, Values) -> Option<Error>,
    /** k8s.GetServiceAddress */
    getServiceAddress: (KubeClient, string, string) -> Result<string>,
    /** k8s.WaitUntilJobIsCompleted */
    waitUntilJobIsCompleted: (KubeClient, string, string, bool) -> Option<Error>,
    /** util.IsIPv6 */
    isIPv6: string -> bool)
}
