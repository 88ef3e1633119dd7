/**
 * The load-balancer strategy: the source side runs an sshd behind a service of
 * type LoadBalancer, the destination side runs rsync against that service's
 * external address.
 */
module LbSvc {
  import opened Wrappers
  import opened Task
  import opened Collaborators
  import opened Trace
  import opened Installers
  import HelmValues

  /** formatSSHTargetHost: an IPv6 address gets exactly one pair of brackets, any other host is kept. */
  function FormatSSHTargetHost(host: string, isIPv6: string -> bool): (r: string)
    ensures isIPv6(host) ==> |r| == |host| + 2 && r[0] == '[' && r[|r| - 1] == ']' && r[1..|r| - 1] == host
    ensures !isIPv6(host) ==> r == host
  {
    if isIPv6(host) then "[" + host + "]" else host
  }

  /** The service fronting the source sshd: the execution's id between `pv-migrate-` and `-sshd`. */
  function ServiceName(e: Execution): (r: string)
    ensures |r| == |e.id| + 16
    ensures r[..11] == "pv-migrate-" && r[11..|r| - 5] == e.id && r[|r| - 5..] == "-sshd"
  {
    "pv-migrate-" + e.id + "-sshd"
  }

  /** Where the destination mounts the private key: `/root/.ssh/id_` followed by the key algorithm. */
  function PrivateKeyMountPath(algorithm: string): (r: string)
    ensures |r| == |algorithm| + 14
    ensures r[..14] == "/root/.ssh/id_" && r[14..] == algorithm
  {
    "/root/.ssh/id_" + algorithm
  }

  /** The rsync job the destination release creates: the release name followed by `-rsync`. */
  function JobName(e: Execution): (r: string)
    ensures |r| == |e.helmReleaseName| + 6
    ensures r[..|e.helmReleaseName|] == e.helmReleaseName && r[|e.helmReleaseName|..] == "-rsync"
  {
    e.helmReleaseName + "-rsync"
  }

  /** The steps of a bracketed trace that fail fast under the hook fail fast as a whole. */
  lemma BracketedFailsFast(trace: seq<Event>, err: Option<Error>)
    requires |trace| >= 1 && trace[0].err.None?
    requires CleanupBracketed(trace) && FailsFast(trace[2..|trace| - 1], err, 4)
    ensures FailsFast(Calls(trace), err, 5)
  {
    BracketedCalls(trace);
    var cs := Calls(trace);
    forall i | 0 <= i < |cs| - 1 ensures cs[i].err.None? {
      if i > 0 {
        assert cs[i] == trace[2..|trace| - 1][i - 1];
      }
    }
  }

  /**
   * The steps Run takes while the cleanup hook is registered, given the key pair it
   * generated: source install, address lookup of the sshd service, destination
   * install against that address, job wait; the first failure ends them and its
   * error is the run's error.
   */
  predicate UnderHook(c: Collaborators, e: Execution, keys: KeyPair, steps: seq<Event>, err: Option<Error>) {
    var s := e.task.sourceInfo;
    var alg := e.task.migration.options.keyAlgorithm;
    var client := s.clusterClient.kubeClient;
    var addr := c.getServiceAddress(client, s.claim.namespace, ServiceName(e));
    && FailsFast(steps, err, 4)
    && steps[0].call.InstallOnSource?
    && steps[0].call.publicKey == keys.publicKey
    && InstallBehaviour(c, e, SourceSide, s, HelmValues.SourceValues(e, keys.publicKey), steps[0].err, steps[0].call.helm)
    && (|steps| > 1 ==>
          steps[1] == Event(GetServiceAddress(client, s.claim.namespace, ServiceName(e)), ErrorOf(addr)))
    && (|steps| > 2 ==>
          && addr.Ok?
          && var host := FormatSSHTargetHost(addr.value, c.isIPv6);
             && steps[2].call.InstallOnDest?
             && steps[2].call.privateKey == keys.privateKey
             && steps[2].call.mountPath == PrivateKeyMountPath(alg)
             && steps[2].call.sshHost == host
             && InstallBehaviour(c, e, DestSide, e.task.destInfo,
                                 HelmValues.DestValues(e, keys.privateKey, PrivateKeyMountPath(alg), host),
                                 steps[2].err, steps[2].call.helm))
    // The job is waited for with the source cluster's client, in the destination namespace.
    && (|steps| > 3 ==>
          var ns := e.task.destInfo.claim.namespace;
          var progress := !e.task.migration.options.noProgressBar;
          steps[3] == Event(WaitUntilJobIsCompleted(client, ns, JobName(e), progress),
                            c.waitUntilJobIsCompleted(client, ns, JobName(e), progress)))
  }

  /** The first step of every run. */
  function KeyEvent(c: Collaborators, e: Execution): Event {
    var alg := e.task.migration.options.keyAlgorithm;
    Event(CreateSSHKeyPair(alg), ErrorOf(c.createSSHKeyPair(alg)))
  }

  /**
   * What a run does: key generation comes first, and when it fails nothing else
   * happens and its error is returned; otherwise the cleanup hook brackets the
   * steps of UnderHook.
   */
  predicate RunBehaviour(c: Collaborators, e: Execution, err: Option<Error>, trace: seq<Event>) {
    var kp := c.createSSHKeyPair(e.task.migration.options.keyAlgorithm);
    && |trace| >= 1
    && trace[0] == KeyEvent(c, e)
    && (kp.Err? ==> trace == [trace[0]] && err == Some(kp.error))
    && (kp.Ok? ==> CleanupBracketed(trace) && UnderHook(c, e, kp.value, trace[2..|trace| - 1], err))
  }

  /** Registering after a successful key generation, taking `steps` and releasing is a run. */
  lemma Registered(c: Collaborators, e: Execution, steps: seq<Event>, err: Option<Error>)
    requires c.createSSHKeyPair(e.task.migration.options.keyAlgorithm).Ok?
    requires UnderHook(c, e, c.createSSHKeyPair(e.task.migration.options.keyAlgorithm).value, steps, err)
    ensures RunBehaviour(c, e, err, [KeyEvent(c, e), Event(RegisterCleanupHook, None)] + steps
                                    + [Event(CleanupAndReleaseHook, None)])
  {
    Bracket(KeyEvent(c, e), steps);
  }

  /**
   * (*LbSvc).Run. The steps are key generation, source install, address lookup,
   * destination install and job wait; the cleanup hook is registered right after
   * key generation and released on every return after that.
   */
  method Run(c: Collaborators, e: Execution) returns (retryable: bool, err: Option<Error>, trace: seq<Event>)
    // Every return path reports the failure, if any, as retryable.
    ensures retryable
    ensures RunBehaviour(c, e, err, trace)
  {
    var s := e.task.sourceInfo;
    var d := e.task.destInfo;
    var sourceNs := s.claim.namespace;
    var destNs := d.claim.namespace;

    var keyAlgorithm := e.task.migration.options.keyAlgorithm;
    var keys := c.createSSHKeyPair(keyAlgorithm);
    var keyEvent := Event(CreateSSHKeyPair(keyAlgorithm), ErrorOf(keys));
    if keys.Err? {
      return true, Some(keys.error), [keyEvent];
    }
    var privateKeyMountPath := PrivateKeyMountPath(keyAlgorithm);

    // registerCleanupHook; the deferred cleanupAndReleaseHook is `release`, recorded on each return below.
    var register := Event(RegisterCleanupHook, None);
    var release := Event(CleanupAndReleaseHook, None);

    var sourceCalls;
    err, sourceCalls := Installers.InstallOnSource(c, e, keys.value.publicKey);
    var sourceEvent := Event(InstallOnSource(keys.value.publicKey, sourceCalls), err);
    if err.Some? {
      Registered(c, e, [sourceEvent], err);
      return true, err, [keyEvent, register] + [sourceEvent] + [release];
    }

    var sourceKubeClient := s.clusterClient.kubeClient;
    var svcName := ServiceName(e);
    var lbSvcAddress := c.getServiceAddress(sourceKubeClient, sourceNs, svcName);
    err := ErrorOf(lbSvcAddress);
    var addressEvent := Event(GetServiceAddress(sourceKubeClient, sourceNs, svcName), err);
    if err.Some? {
      Registered(c, e, [sourceEvent, addressEvent], err);
      return true, err, [keyEvent, register] + [sourceEvent, addressEvent] + [release];
    }

    var sshTargetHost := FormatSSHTargetHost(lbSvcAddress.value, c.isIPv6);

    var destCalls;
    err, destCalls := Installers.InstallOnDest(c, e, keys.value.privateKey, privateKeyMountPath, sshTargetHost);
    var destEvent := Event(InstallOnDest(keys.value.privateKey, privateKeyMountPath, sshTargetHost, destCalls), err);
    if err.Some? {
      Registered(c, e, [sourceEvent, addressEvent, destEvent], err);
      return true, err, [keyEvent, register] + [sourceEvent, addressEvent, destEvent] + [release];
    }

    var showProgressBar := !e.task.migration.options.noProgressBar;
    var kubeClient := s.clusterClient.kubeClient;
    var jobName := JobName(e);
    err := c.waitUntilJobIsCompleted(kubeClient, destNs, jobName, showProgressBar);
    var waitEvent := Event(WaitUntilJobIsCompleted(kubeClient, destNs, jobName, showProgressBar), err);
    Registered(c, e, [sourceEvent, addressEvent, destEvent, waitEvent], err);
    return true, err, [keyEvent, register] + [sourceEvent, addressEvent, destEvent, waitEvent] + [release];
  }

  /**
   * The cleanup hook is registered exactly when key generation succeeded, then only
   * after it, before either install, and released exactly once, at the end.
   */
  lemma RunHooks(c: Collaborators, e: Execution, err: Option<Error>, trace: seq<Event>)
    requires RunBehaviour(c, e, err, trace)
    ensures Hooks(trace) == if c.createSSHKeyPair(e.task.migration.options.keyAlgorithm).Ok?
                            then [RegisterCleanupHook, CleanupAndReleaseHook] else []
    ensures forall i :: 0 <= i < |trace| && IsInstall(trace[i].call) ==>
              1 < i && trace[1].call == RegisterCleanupHook
  {
    KeyStepHooks(trace, c.createSSHKeyPair(e.task.migration.options.keyAlgorithm).Ok?);
  }

  /**
   * Over its five steps (key generation, source install, address lookup, destination
   * install, job wait) a run stops at the first failure and returns that error, or
   * the job wait's result when every step ran.
   */
  lemma RunFailsFast(c: Collaborators, e: Execution, err: Option<Error>, trace: seq<Event>)
    requires RunBehaviour(c, e, err, trace)
    ensures FailsFast(Calls(trace), err, 5)
  {
    if c.createSSHKeyPair(e.task.migration.options.keyAlgorithm).Ok? {
      BracketedFailsFast(trace, err);
    } else {
      Single(trace[0]);
    }
  }
}
