/**
 * installOnSource and installOnDest: each initialises a Helm action
 * configuration for its side, fills in an install action, merges its value list
 * with the user's values and runs the install.
 */
module Installers {
  import opened Wrappers
  import opened Task
  import opened Collaborators
  import opened Trace
  import HelmValues

  /** time.Minute, a Go time.Duration in nanoseconds. */
  const Minute: int := 60 * 1000 * 1000 * 1000

  /** The fields of Helm's install action that the strategy assigns. */
  class Install {
    const config: ActionConfig
    var namespace: string
    var releaseName: string
    var wait: bool
    var timeout: int

    /** action.NewInstall: every field the strategy sets starts at Go's zero value. */
    constructor (config: ActionConfig)
      ensures this.config == config
      ensures namespace == "" && releaseName == "" && !wait && timeout == 0
    {
      this.config := config;
      namespace := "";
      releaseName := "";
      wait := false;
      timeout := 0;
    }

    /** What install.Run is handed. */
    function Settings(): InstallSettings
      reads this
    {
      InstallSettings(config, namespace, releaseName, wait, timeout)
    }
  }

  /** The settings both installers give their release: own namespace, shared name, wait one minute. */
  function ReleaseSettings(config: ActionConfig, info: PvcInfo, e: Execution): InstallSettings {
    InstallSettings(config, info.claim.namespace, e.helmReleaseName, true, Minute)
  }

  /**
   * What the installer of `side` does for claim `info` with value list `values`: it calls
   * initHelmActionConfig, then getMergedHelmValues, then install.Run, stops at the
   * first of them that fails, and returns the error of the last call made.
   */
  predicate InstallBehaviour(c: Collaborators, e: Execution, side: Side, info: PvcInfo, values: seq<string>,
                             err: Option<Error>, calls: seq<Event>)
  {
    var config := c.initHelmActionConfig(side, info);
    var opts := e.task.migration.options;
    var merged := c.getMergedHelmValues(side, values, opts);
    && FailsFast(calls, err, 3)
    && calls[0] == Event(InitHelmActionConfig(info), ErrorOf(config))
    && (|calls| > 1 ==> calls[1] == Event(GetMergedHelmValues(values, opts), ErrorOf(merged)))
    && (|calls| > 2 ==>
          && config.Ok? && merged.Ok?
          && var settings := ReleaseSettings(config.value, info, e);
             calls[2] == Event(InstallRun(settings, e.task.chart, merged.value),
                               c.installRun(side, settings, e.task.chart, merged.value)))
  }

  /** A failed configuration or merge is returned as is, and install.Run is then never called. */
  lemma InstallStopsAtFirstError(c: Collaborators, e: Execution, side: Side, info: PvcInfo, values: seq<string>,
                                 err: Option<Error>, calls: seq<Event>)
    requires InstallBehaviour(c, e, side, info, values, err, calls)
    ensures var config := c.initHelmActionConfig(side, info);
            config.Err? ==> err == Some(config.error) && |calls| == 1
    ensures var config := c.initHelmActionConfig(side, info);
            var merged := c.getMergedHelmValues(side, values, e.task.migration.options);
            config.Ok? && merged.Err? ==> err == Some(merged.error) && |calls| == 2
    ensures var config := c.initHelmActionConfig(side, info);
            var merged := c.getMergedHelmValues(side, values, e.task.migration.options);
            config.Ok? && merged.Ok? ==>
              |calls| == 3 &&
              err == c.installRun(side, ReleaseSettings(config.value, info, e), e.task.chart, merged.value)
    ensures forall i :: 0 <= i < |calls| ==> (calls[i].call.InstallRun? <==> i == 2)
  {
    var config := c.initHelmActionConfig(side, info);
    var merged := c.getMergedHelmValues(side, values, e.task.migration.options);
    if |calls| > 1 {
      assert calls[0].err.None?;
      assert calls[1].err == ErrorOf(merged);
    }
    if |calls| > 2 {
      assert calls[1].err.None?;
    }
  }

  /** The installer's outcome is a function of the collaborators' answers. */
  lemma InstallBehaviourDetermined(c: Collaborators, e: Execution, side: Side, info: PvcInfo, values: seq<string>,
                                   err1: Option<Error>, calls1: seq<Event>,
                                   err2: Option<Error>, calls2: seq<Event>)
    requires InstallBehaviour(c, e, side, info, values, err1, calls1)
    requires InstallBehaviour(c, e, side, info, values, err2, calls2)
    ensures err1 == err2 && calls1 == calls2
  {
    InstallStopsAtFirstError(c, e, side, info, values, err1, calls1);
    InstallStopsAtFirstError(c, e, side, info, values, err2, calls2);
  }

  /** The body shared by installOnSource and installOnDest. */
  method InstallRelease(c: Collaborators, e: Execution, side: Side, info: PvcInfo, values: seq<string>)
    returns (err: Option<Error>, calls: seq<Event>)
    ensures InstallBehaviour(c, e, side, info, values, err, calls)
  {
    var config := c.initHelmActionConfig(side, info);
    calls := [Event(InitHelmActionConfig(info), ErrorOf(config))];
    if config.Err? {
      return Some(config.error), calls;
    }

    var install := new Install(config.value);
    install.namespace := info.claim.namespace;
    install.releaseName := e.helmReleaseName;
    install.wait := true;
    install.timeout := Minute;

    var opts := e.task.migration.options;
    var vals := c.getMergedHelmValues(side, values, opts);
    calls := calls + [Event(GetMergedHelmValues(values, opts), ErrorOf(vals))];
    if vals.Err? {
      return Some(vals.error), calls;
    }

    var settings := install.Settings();
    err := c.installRun(side, settings, e.task.chart, vals.value);
    calls := calls + [Event(InstallRun(settings, e.task.chart, vals.value), err)];
  }

  /** installOnSource: the sshd release on the source side, carrying the public key. */
  method InstallOnSource(c: Collaborators, e: Execution, publicKey: string)
    returns (err: Option<Error>, calls: seq<Event>)
    ensures InstallBehaviour(c, e, SourceSide, e.task.sourceInfo, HelmValues.SourceValues(e, publicKey), err, calls)
  {
    err, calls := InstallRelease(c, e, SourceSide, e.task.sourceInfo, HelmValues.SourceValues(e, publicKey));
  }

  /** installOnDest: the rsync release on the destination side, carrying the private key and the sshd host. */
  method InstallOnDest(c: Collaborators, e: Execution, privateKey: string, privateKeyMountPath: string, sshHost: string)
    returns (err: Option<Error>, calls: seq<Event>)
    ensures InstallBehaviour(c, e, DestSide, e.task.destInfo,
                             HelmValues.DestValues(e, privateKey, privateKeyMountPath, sshHost), err, calls)
  {
    err, calls := InstallRelease(c, e, DestSide, e.task.destInfo,
                                 HelmValues.DestValues(e, privateKey, privateKeyMountPath, sshHost));
  }
}
