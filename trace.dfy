/**
 * The record of one run: every call the strategy makes, in order, with the
 * error that call returned. Helm calls made by an installer are nested inside
 * that installer's step.
 */
module Trace {
  import opened Wrappers
  import opened Task
  import opened Collaborators

  datatype Call =
    | CreateSSHKeyPair(algorithm: string)
    | RegisterCleanupHook
    | InstallOnSource(publicKey: string, helm: seq<Event>)
    | GetServiceAddress(client: KubeClient, namespace: string, service: string)
    | InstallOnDest(privateKey: string, mountPath: string, sshHost: string, helm: seq<Event>)
    | WaitUntilJobIsCompleted(client: KubeClient, namespace: string, job: string, showProgress: bool)
    | CleanupAndReleaseHook
    | InitHelmActionConfig(info: PvcInfo)
    | GetMergedHelmValues(values: seq<string>, options: Options)
    | InstallRun(settings: InstallSettings, chart: Chart, vals: Values)

  datatype Event = Event(call: Call, err: Option<Error>)

  /** Registering and releasing the cleanup hook are not steps that can fail. */
  predicate IsHook(c: Call) {
    c.RegisterCleanupHook? || c.CleanupAndReleaseHook?
  }

  /** Calls that create cluster resources. */
  predicate IsInstall(c: Call) {
    c.InstallOnSource? || c.InstallOnDest?
  }

  /** The steps of a trace, hook events left out. */
  function Calls(trace: seq<Event>): seq<Event> {
    if trace == [] then []
    else (if IsHook(trace[0].call) then [] else [trace[0]]) + Calls(trace[1..])
  }

  /** The hook events of a trace, in order. */
  function Hooks(trace: seq<Event>): seq<Call> {
    if trace == [] then []
    else (if IsHook(trace[0].call) then [trace[0].call] else []) + Hooks(trace[1..])
  }

  /**
   * A trace of a run that registered the cleanup hook: key generation, the
   * registration, the steps made while the hook is registered, the release.
   */
  predicate CleanupBracketed(trace: seq<Event>) {
    && |trace| >= 3
    && trace[0].call.CreateSSHKeyPair?
    && trace[1] == Event(RegisterCleanupHook, None)
    && trace[|trace| - 1] == Event(CleanupAndReleaseHook, None)
    && forall i :: 2 <= i < |trace| - 1 ==> !IsHook(trace[i].call)
  }

  /** Key generation, the registration, `steps`, the release: a bracketed trace around `steps`. */
  lemma Bracket(key: Event, steps: seq<Event>)
    requires key.call.CreateSSHKeyPair?
    requires forall i :: 0 <= i < |steps| ==> !IsHook(steps[i].call)
    ensures var trace := [key, Event(RegisterCleanupHook, None)] + steps + [Event(CleanupAndReleaseHook, None)];
            && CleanupBracketed(trace)
            && trace[2..|trace| - 1] == steps
  {
    var trace := [key, Event(RegisterCleanupHook, None)] + steps + [Event(CleanupAndReleaseHook, None)];
    assert forall i :: 2 <= i < |trace| - 1 ==> trace[i] == steps[i - 2];
  }

  /** Hooks and the other steps of the part that lies between registration and release. */
  lemma {:induction false} Middle(steps: seq<Event>, release: Event)
    requires forall i :: 0 <= i < |steps| ==> !IsHook(steps[i].call)
    requires release.call == CleanupAndReleaseHook
    ensures Calls(steps + [release]) == steps
    ensures Hooks(steps + [release]) == [CleanupAndReleaseHook]
  {
    if steps == [] {
      assert steps + [release] == [release];
      assert [release][1..] == [];
    } else {
      assert (steps + [release])[1..] == steps[1..] + [release];
      Middle(steps[1..], release);
    }
  }

  /**
   * In a bracketed trace the hook is registered once, before any install,
   * and released once.
   */
  lemma BracketedHooks(trace: seq<Event>)
    requires CleanupBracketed(trace)
    ensures Hooks(trace) == [RegisterCleanupHook, CleanupAndReleaseHook]
    ensures forall i :: 0 <= i < |trace| && IsInstall(trace[i].call) ==>
              1 < i && trace[1].call == RegisterCleanupHook
  {
    var rest := trace[2..];
    assert rest == trace[2..|trace| - 1] + [trace[|trace| - 1]];
    Middle(trace[2..|trace| - 1], trace[|trace| - 1]);
    assert trace[1..][1..] == rest;
    assert Hooks(trace[1..]) == [RegisterCleanupHook] + Hooks(rest);
  }

  /** The calls of a bracketed trace are its first step followed by those made under the hook. */
  lemma BracketedCalls(trace: seq<Event>)
    requires CleanupBracketed(trace)
    ensures Calls(trace) == [trace[0]] + trace[2..|trace| - 1]
  {
    var rest := trace[2..];
    assert rest == trace[2..|trace| - 1] + [trace[|trace| - 1]];
    Middle(trace[2..|trace| - 1], trace[|trace| - 1]);
    assert trace[1..][1..] == rest;
    assert Calls(trace[1..]) == Calls(rest);
  }

  /**
   * A trace that is either one key-generation step or a bracketed trace: the hooks
   * occur exactly in the bracketed case, and every install comes after the registration.
   */
  lemma KeyStepHooks(trace: seq<Event>, registered: bool)
    requires registered ==> CleanupBracketed(trace)
    requires !registered ==> |trace| == 1 && trace[0].call.CreateSSHKeyPair?
    ensures Hooks(trace) == if registered then [RegisterCleanupHook, CleanupAndReleaseHook] else []
    ensures forall i :: 0 <= i < |trace| && IsInstall(trace[i].call) ==>
              1 < i && trace[1].call == RegisterCleanupHook
  {
    if registered {
      BracketedHooks(trace);
    } else {
      Single(trace[0]);
    }
  }

  /** A single step that is not a hook. */
  lemma Single(ev: Event)
    ensures Calls([ev]) == if IsHook(ev.call) then [] else [ev]
    ensures Hooks([ev]) == if IsHook(ev.call) then [ev.call] else []
  {
    assert [ev][1..] == [];
  }

  /**
   * Abort on first failure, for a sequence of at most `steps` steps: every step
   * but the last succeeded, the result is the last step's error, and fewer than
   * `steps` steps ran only because the last one failed.
   */
  predicate FailsFast(calls: seq<Event>, err: Option<Error>, steps: nat) {
    && 1 <= |calls| <= steps
    && (forall i :: 0 <= i < |calls| - 1 ==> calls[i].err.None?)
    && err == calls[|calls| - 1].err
    && (|calls| < steps ==> err.Some?)
  }
}
