# pv-migrate load-balancer strategy

A Dafny model of the `lbsvc` strategy of pv-migrate (`internal/strategy/lbsvc.go`).
The strategy migrates a persistent volume claim's data in four steps after generating an
SSH key pair:

1. It installs an sshd Helm release on the source side, exposed by a service of type
   LoadBalancer.
2. It looks up that service's external address.
3. It installs an rsync Helm release on the destination side that connects to that address.
4. It waits for the rsync job to complete.

A cleanup hook is registered once the keys exist. The hook is released, through a `defer`,
on every return after that point.

The model's parts:

- **Collaborators** (`collaborators.dfy`). Everything the strategy calls but does not
  define is a total function stored in a `Collaborators` value:
  - key generation
  - `initHelmActionConfig`
  - `getMergedHelmValues`
  - `install.Run`
  - `k8s.GetServiceAddress`
  - `k8s.WaitUntilJobIsCompleted`
  - `util.IsIPv6`

  A run reaches each call site at most once. The Helm calls (`initHelmActionConfig`,
  `getMergedHelmValues`, `install.Run`) are made by both installers, so they also take a
  `Side` argument naming the installer that calls them. A function of these arguments can
  therefore stand for any outcome, including the nondeterministic result of key generation
  and a configuration that succeeds on the source side and fails on the destination side
  for the same claim.
- **Trace** (`trace.dfy`). A run produces a trace of `Event`s: the call made, with its
  arguments, and the error it returned.
  - The registration and the release of the cleanup hook are events too.
  - Each installer's event holds the installer's own trace of Helm calls.
  - `FailsFast` is the abort-on-first-failure shape shared by `Run` and the installers.
  - `CleanupBracketed` is the shape the `defer` gives a run: key generation, registration,
    the steps taken under the hook, then the release. Registration and release are events
    without an error.
- **Run** (`lbsvc.dfy`). `LbSvc.Run` is a method that follows the Go code's early returns.
  It records the release event before every return that follows registration.
  - Its contract is `RunBehaviour`: it states each step's arguments and each step's outcome
    as a function of the collaborators' answers.
  - Two lemmas state the properties about the whole trace: `RunHooks` and `RunFailsFast`.
- **Installers** (`installers.dfy`).
  - `installOnSource` and `installOnDest` repeat the same body in Go; the model writes it once, as
    `InstallRelease`, and the two methods differ only in the side and the value list. It creates an
    `Install` object (a class whose fields are Helm's `action.Install` fields), assigns
    namespace, release name, `Wait` and `Timeout`, merges the values and runs the install.
  - `InstallBehaviour` states this sequence and its early returns.
- **Value lists** (`helm_values.dfy`). `SourceValues` and `DestValues` are the `key=value`
  literals, in source order.
  - The lists go to `getMergedHelmValues`, whose merge is not part of this model.
    `Decode` is the model's own reading of them and the lists' partner: it splits each entry
    at its first `=`.
  - Lemmas show that each list decodes to exactly the intended table of keys and values.

`Timeout` is a Go `time.Duration`, so one minute is held as 60 000 000 000 nanoseconds.

The job wait is passed the *source* cluster's kube client together with the *destination*
namespace. That is how `lbsvc.go:56-58` is written, and the model keeps it as written.

## Model

| member | source | states |
|---|---|---|
| LbSvc.Run | internal/strategy/lbsvc.go:17-60 | `retryable` is true on every return. The trace meets `RunBehaviour`: key generation with the configured algorithm comes first, and if it fails the run is that single event and returns its error. Otherwise the hook brackets the `UnderHook` steps. Those steps are the source install with the public key and the seven source values; the address lookup of `pv-migrate-<ID>-sshd` with the source client and namespace; the destination install with the private key, `/root/.ssh/id_<alg>` and the formatted address; and the wait for job `<release>-rsync` with the source client, the destination namespace and `!NoProgressBar`. They stop at the first failure and return its error. |
| LbSvc.Registered | internal/strategy/lbsvc.go:33-34 | After a successful key generation, the registration, a sequence of `UnderHook` steps and a single release make up a run that satisfies `RunBehaviour`. |
| LbSvc.RunHooks | internal/strategy/lbsvc.go:27-36 | A run's hook events are [register, release] when key generation succeeded and none when it failed. Every install comes after the registration. |
| LbSvc.RunFailsFast | internal/strategy/lbsvc.go:27-59 | Across all five steps, every step except the last succeeded. The run returns the last step's error, so on full success it returns the job wait's result unchanged. Fewer than five steps ran only if the last one failed. |
| LbSvc.BracketedFailsFast | internal/strategy/lbsvc.go:36-59 | If the steps under the hook fail fast, the whole run, key generation included, fails fast. |
| LbSvc.ServiceName | internal/strategy/lbsvc.go:42 | The service name is `pv-migrate-`, then the execution's id, then `-sshd`, and nothing else. |
| LbSvc.PrivateKeyMountPath | internal/strategy/lbsvc.go:31 | The mount path is `/root/.ssh/id_` followed by the key algorithm, and nothing else. |
| LbSvc.JobName | internal/strategy/lbsvc.go:57 | The job name is the Helm release name followed by `-rsync`, and nothing else. |
| LbSvc.FormatSSHTargetHost | internal/strategy/lbsvc.go:138-143 | When `IsIPv6(host)` holds, the result is `host` wrapped in exactly one `[` and one `]`. Otherwise the result is `host` itself. |
| Trace.KeyStepHooks | internal/strategy/lbsvc.go:27-36 | A trace that is either a lone key-generation step or a bracketed trace has hook events [register, release] in the bracketed case and none otherwise. Every install comes after the registration. |
| Trace.BracketedHooks | internal/strategy/lbsvc.go:33-34 | In a bracketed trace the hook is registered once and released once. Every install comes after the registration. |
| Trace.BracketedCalls | internal/strategy/lbsvc.go:33-34 | With the hook events removed, a bracketed trace is key generation followed by the steps taken under the hook. |
| Trace.Bracket | internal/strategy/lbsvc.go:33-34 | Key generation, the registration, hook-free steps and the release form a bracketed trace whose middle part is those steps. |
| Trace.Middle | internal/strategy/lbsvc.go:34 | After hook-free steps, the deferred release adds exactly one hook event and no other step. |
| Installers.InstallRelease | internal/strategy/lbsvc.go:64-95 | Calls are made in this order: action config for the side, then merge of the side's value list with the options, then `install.Run` on the chart with namespace = the side's claim namespace, release name = `HelmReleaseName`, `Wait` true and a one-minute `Timeout`. The first failure is returned. `install.Run` is reached only when both earlier calls succeed. |
| Installers.InstallOnSource | internal/strategy/lbsvc.go:62-96 | `InstallBehaviour` on the source claim with the seven source values built from the public key. |
| Installers.InstallOnDest | internal/strategy/lbsvc.go:98-136 | `InstallBehaviour` on the destination claim with the eleven destination values built from the private key, mount path and sshd host. |
| Installers.InstallStopsAtFirstError | internal/strategy/lbsvc.go:64-95 | A failed action config is returned after one call, and a failed merge after two. In both cases `install.Run` is never called. When both succeed, the error of `install.Run` with the release settings is returned. `install.Run` is called at most once, as the third call. |
| Installers.InstallBehaviourDetermined | internal/strategy/lbsvc.go:64-95 | Given the collaborators' answers, an installer's error and Helm trace are uniquely determined. |
| Installers.Install.constructor | internal/strategy/lbsvc.go:72 | A new install action holds the action configuration. Namespace, release name, `Wait` and `Timeout` start at Go's zero values. |
| HelmValues.SourceValues | internal/strategy/lbsvc.go:79-87 | The source value list has exactly seven entries. `SourceValuesDecode` states what each one sets. |
| HelmValues.DestValues | internal/strategy/lbsvc.go:115-127 | The destination value list has exactly eleven entries. `DestValuesDecode` states what each one sets. |
| HelmValues.FormatBool | internal/strategy/lbsvc.go:117-118 | `strconv.FormatBool` gives `"true"` exactly for true, and otherwise `"false"`. |
| HelmValues.SourceValuesDecode | internal/strategy/lbsvc.go:79-87 | The source list, read as pairs, is exactly: `sshd.enabled`=`true`, `sshd.publicKey`=the key, `sshd.service.type`=`LoadBalancer`, `source.namespace`, `source.pvcName`, `source.pvcMountReadOnly`=FormatBool(SourceMountReadOnly), `source.path`. The order is as listed. |
| HelmValues.DestValuesDecode | internal/strategy/lbsvc.go:115-127 | The destination list, read as pairs, is exactly these eleven entries in order: `rsync.enabled`=`true`, `rsync.deleteExtraneousFiles`, `rsync.noChown`, `rsync.privateKeyMount`=`true`, `rsync.privateKey`, `rsync.privateKeyMountPath`, `rsync.sshRemoteHost`, `source.path`, `dest.namespace`, `dest.pvcName`, `dest.path`. Each has its intended value. |
| HelmValues.FormatBoolRoundTrip | internal/strategy/lbsvc.go:117-118 | `strconv.FormatBool` writes only `"true"` or `"false"`, and reading that string back gives the original boolean. |
| HelmValues.EntryRoundTrip | internal/strategy/lbsvc.go:79-87 | Splitting `key=value` at its first `=` gives back the key and the value whenever the key contains no `=`. This holds even when the value contains `=`. |
| HelmValues.DecodeEntries | internal/strategy/lbsvc.go:115-127 | A list built entry by entry from a table of pairs with `=`-free keys decodes back to that table. |

## Left out

- Key generation: the cryptography (`ssh.CreateSSHKeyPair`) is a foreign library. Only its outcome, a key pair or an error, is modelled.
- Helm and Kubernetes: these are foreign library I/O. Only the arguments and the success or failure of each call are modelled:
  - `initHelmActionConfig`
  - chart rendering inside `install.Run`, and the release value `install.Run` returns, which the code discards
  - the polling inside `k8s.GetServiceAddress` and `k8s.WaitUntilJobIsCompleted`
- `getMergedHelmValues`: its merge semantics are not part of this model. It is an abstract function from the calling side, the value list and the options to values or an error.
- `registerCleanupHook` / `cleanupAndReleaseHook`: their signal watching and background teardown are concurrency. They appear only as one registration event and one release event.
- `util.IsIPv6`: it is not part of this model and stays an uninterpreted predicate. Nothing is claimed about which strings it accepts, or about `FormatSSHTargetHost` applied twice.
- Logging (`Logger.Info`) and time: they have no effect on the result.
- The `Side` argument of the Helm collaborators is not in the Go signatures. It stands for the call site, so that the two installers' Helm calls may answer differently even when both claims are equal.
