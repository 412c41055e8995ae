/**
 * What a playbook run promises: when it ends early, when it succeeds, how
 * the container is cleaned up, and what `--skip-container` leaves out.
 */
module RunFacts {
  import opened Wrappers
  import opened Text
  import opened Paths
  import opened EnvFile
  import opened Effects
  import opened Runtime
  import opened Steps
  import opened Workflow
  import Activation

  // ---------------------------------------------------------------------------
  // Traces
  // ---------------------------------------------------------------------------

  /** A call that stops a container. */
  predicate IsStop(c: Call) {
    c.command.Stop?
  }

  /** Every call of `t` from position `n` on that is not a stop succeeded. */
  predicate SucceededFrom(t: seq<Call>, n: nat) {
    forall i :: n <= i < |t| && !IsStop(t[i]) ==> t[i].ok
  }

  /** The number of stop calls in `t`. */
  function StopCount(t: seq<Call>): nat {
    if t == [] then 0 else StopCount(t[..|t| - 1]) + (if IsStop(t[|t| - 1]) then 1 else 0)
  }

  /** `t` ends with a stop of `name` under `runtime`, which succeeded exactly
      when the outside world lets the command at that position succeed. */
  predicate EndsWithStop(t: seq<Call>, ext: Externals, runtime: string, name: string) {
    |t| > 0 && t[|t| - 1] == Call(Stop(runtime, name), None, |t| - 1 !in ext.failing)
  }

  /** No call of `t` after position `n`, or the last one is not a stop. */
  predicate NoFinalStopAfter(t: seq<Call>, n: nat) {
    n < |t| ==> !IsStop(t[|t| - 1])
  }

  /** `w1` logs, on top of the warnings of `w`, exactly the failure of its
      last command, the stop of `name`. */
  predicate WarnsOnFailedStop(w: World, w1: World, ext: Externals, name: string) {
    w1.warnings == w.warnings + (if |w1.trace| - 1 in ext.failing then [CleanupStopFailed(name)] else [])
  }

  lemma SucceededAppend(t: seq<Call>, n: nat, c: Call)
    requires n <= |t|
    ensures SucceededFrom(t + [c], n) <==> SucceededFrom(t, n) && (IsStop(c) || c.ok)
  {
    assert forall i :: 0 <= i < |t| ==> (t + [c])[i] == t[i];
    assert (t + [c])[|t|] == c;
  }

  lemma StopCountAppend(t: seq<Call>, c: Call)
    ensures StopCount(t + [c]) == StopCount(t) + (if IsStop(c) then 1 else 0)
  {
    assert (t + [c])[..|t|] == t;
  }

  // ---------------------------------------------------------------------------
  // The container step
  // ---------------------------------------------------------------------------

  /** The container commands: every one but the stop succeeded exactly when
      the step completes; a built image is followed by exactly one stop,
      and the step never ends on a stop. */
  lemma ContainerCalls(w: World, ext: Externals, runtime: string, volumeOpt: string, root: Path, name: string, hostPort: int)
    ensures var (w1, err) := Container(w, ext, runtime, volumeOpt, root, name, hostPort);
            var n := |w.trace|;
            && n < |w1.trace| && w.trace <= w1.trace
            && (SucceededFrom(w1.trace, n) <==> err.None?)
            && StopCount(w1.trace) == StopCount(w.trace) + (if n !in ext.failing then 1 else 0)
            && !IsStop(w1.trace[|w1.trace| - 1])
  {
    var n := |w.trace|;
    ContainerOutcome(w, ext, runtime, volumeOpt, root, name, hostPort);
    var build := Call(Build(runtime, root, name), None, n !in ext.failing);
    if n in ext.failing {
      BuildCall(w.trace, build);
    } else {
      BuildStopStartCalls(w.trace, build, Call(Stop(runtime, name), None, n + 1 !in ext.failing),
                          Call(Start(runtime, volumeOpt, root, name, hostPort), None, n + 2 !in ext.failing));
    }
  }

  lemma BuildCall(t: seq<Call>, build: Call)
    requires !IsStop(build)
    ensures var t1 := t + [build];
            && (SucceededFrom(t1, |t|) <==> build.ok)
            && StopCount(t1) == StopCount(t)
            && !IsStop(t1[|t1| - 1])
  {
    SucceededAppend(t, |t|, build);
    StopCountAppend(t, build);
  }

  lemma BuildStopStartCalls(t: seq<Call>, build: Call, stop: Call, start: Call)
    requires !IsStop(build) && IsStop(stop) && !IsStop(start)
    ensures var t3 := t + [build] + [stop] + [start];
            && (SucceededFrom(t3, |t|) <==> build.ok && start.ok)
            && StopCount(t3) == StopCount(t) + 1
            && !IsStop(t3[|t3| - 1])
  {
    var t1 := t + [build];
    SucceededAppend(t, |t|, build);
    SucceededAppend(t1, |t|, stop);
    SucceededAppend(t1 + [stop], |t|, start);
    StopCountAppend(t, build);
    StopCountAppend(t1, stop);
    StopCountAppend(t1 + [stop], start);
  }

  lemma MaybeContainerCalls(w: World, ext: Externals, runtime: string, volumeOpt: string, root: Path, name: string, hostPort: int,
                            skipContainer: bool)
    ensures var (w1, err) := MaybeContainer(w, ext, runtime, volumeOpt, root, name, hostPort, skipContainer);
            var n := |w.trace|;
            && n <= |w1.trace| && w.trace <= w1.trace
            && w1.environ == w.environ && w1.warnings == w.warnings
            && (SucceededFrom(w1.trace, n) <==> err.None?)
            && (err.None? <==> skipContainer || (n !in ext.failing && n + 2 !in ext.failing))
            && StopCount(w1.trace) == StopCount(w.trace) + (if !skipContainer && n !in ext.failing then 1 else 0)
            && NoFinalStopAfter(w1.trace, n)
            && (skipContainer ==> w1 == w && err.None?)
  {
    if !skipContainer {
      ContainerCalls(w, ext, runtime, volumeOpt, root, name, hostPort);
      ContainerOutcome(w, ext, runtime, volumeOpt, root, name, hostPort);
    }
  }

  // ---------------------------------------------------------------------------
  // The `try` body
  // ---------------------------------------------------------------------------

  /** The playbook call made once roles and collections are in place. */
  function PlaybookCall(w: World, ext: Externals, root: Path, skipContainer: bool, limit: Option<string>, key: Path, vault: Path): Call {
    Call(RunPlaybook(PathJoin(root, InventoryFile), PathJoin(root, PlaybookFile), PlaybookLimit(skipContainer, limit)),
         Some(w.environ + ExtraEnv(key, vault)), |w.trace| !in ext.failing)
  }

  /** The Ansible steps make the one playbook call once roles and
      collections are in place, and complete exactly when all three do. */
  lemma AnsibleStepsOutcome(w: World, ext: Externals, root: Path, skipContainer: bool, limit: Option<string>, key: Path, vault: Path)
    ensures var (w1, err) := AnsibleSteps(w, ext, root, skipContainer, limit, key, vault);
            && w1.environ == w.environ && w1.warnings == w.warnings
            && w1.trace == w.trace + (if ext.rolesOk && ext.collectionsOk then [PlaybookCall(w, ext, root, skipContainer, limit, key, vault)] else [])
            && (err.None? <==> ext.rolesOk && ext.collectionsOk && |w.trace| !in ext.failing)
  {
  }

  /** The `try` body only appends to the trace and marks the container
      started exactly when build and start succeed. */
  lemma BodyFrame(w: World, ext: Externals, root: Path, runtime: string, volumeOpt: string, name: string, hostPort: int,
                  skipContainer: bool, limit: Option<string>, key: Path, vault: Path)
    ensures var (w1, started, err) := Body(w, ext, root, runtime, volumeOpt, name, hostPort, skipContainer, limit, key, vault);
            var n := |w.trace|;
            && n <= |w1.trace| && w.trace <= w1.trace
            && w1.environ == w.environ && w1.warnings == w.warnings
            && (started <==> !skipContainer && n !in ext.failing && n + 2 !in ext.failing)
  {
    MaybeContainerCalls(w, ext, runtime, volumeOpt, root, name, hostPort, skipContainer);
    var (w1, cerr) := MaybeContainer(w, ext, runtime, volumeOpt, root, name, hostPort, skipContainer);
    if cerr.None? {
      AnsibleStepsOutcome(w1, ext, root, skipContainer, limit, key, vault);
    }
  }

  /** The `try` body completes exactly when roles and collections are in
      place and every command but the pre-start stop succeeded. */
  lemma BodySucceeds(w: World, ext: Externals, root: Path, runtime: string, volumeOpt: string, name: string, hostPort: int,
                     skipContainer: bool, limit: Option<string>, key: Path, vault: Path)
    ensures var (w1, started, err) := Body(w, ext, root, runtime, volumeOpt, name, hostPort, skipContainer, limit, key, vault);
            err.None? <==> ext.rolesOk && ext.collectionsOk && SucceededFrom(w1.trace, |w.trace|)
  {
    var n := |w.trace|;
    MaybeContainerCalls(w, ext, runtime, volumeOpt, root, name, hostPort, skipContainer);
    var (w1, cerr) := MaybeContainer(w, ext, runtime, volumeOpt, root, name, hostPort, skipContainer);
    if cerr.None? {
      AnsibleStepsOutcome(w1, ext, root, skipContainer, limit, key, vault);
      if ext.rolesOk && ext.collectionsOk {
        SucceededAppend(w1.trace, n, PlaybookCall(w1, ext, root, skipContainer, limit, key, vault));
      }
    }
  }

  /** The `try` body issues the pre-start stop once the image is built, no
      other stop, and never ends on a stop. */
  lemma BodyStops(w: World, ext: Externals, root: Path, runtime: string, volumeOpt: string, name: string, hostPort: int,
                  skipContainer: bool, limit: Option<string>, key: Path, vault: Path)
    ensures var (w1, started, err) := Body(w, ext, root, runtime, volumeOpt, name, hostPort, skipContainer, limit, key, vault);
            var n := |w.trace|;
            && n <= |w1.trace|
            && StopCount(w1.trace) == StopCount(w.trace) + (if !skipContainer && n !in ext.failing then 1 else 0)
            && NoFinalStopAfter(w1.trace, n)
  {
    MaybeContainerCalls(w, ext, runtime, volumeOpt, root, name, hostPort, skipContainer);
    var (w1, cerr) := MaybeContainer(w, ext, runtime, volumeOpt, root, name, hostPort, skipContainer);
    if cerr.None? {
      AnsibleStepsOutcome(w1, ext, root, skipContainer, limit, key, vault);
      if ext.rolesOk && ext.collectionsOk {
        StopCountAppend(w1.trace, PlaybookCall(w1, ext, root, skipContainer, limit, key, vault));
      }
    }
  }

  // ---------------------------------------------------------------------------
  // The `finally`
  // ---------------------------------------------------------------------------

  /** The stop the `finally` may add leaves the earlier calls alone and does
      not count against success. */
  lemma CleanupKeepsSuccess(w: World, ext: Externals, runtime: string, name: string, started: bool, m: nat)
    requires m <= |w.trace|
    ensures var w1 := Cleanup(w, ext, runtime, name, started);
            && |w.trace| <= |w1.trace| && w.trace <= w1.trace
            && w1.environ == w.environ
            && (SucceededFrom(w1.trace, m) <==> SucceededFrom(w.trace, m))
  {
    if started {
      SucceededAppend(w.trace, m, Call(Stop(runtime, name), None, |w.trace| !in ext.failing));
    }
  }

  /** A started container gets one more stop, the last call, and a warning
      exactly when that stop fails; otherwise nothing changes. */
  lemma CleanupStops(w: World, ext: Externals, runtime: string, name: string, started: bool)
    ensures var w1 := Cleanup(w, ext, runtime, name, started);
            && (started ==>
                  && |w1.trace| == |w.trace| + 1
                  && w1.trace[|w.trace|] == Call(Stop(runtime, name), None, |w.trace| !in ext.failing)
                  && StopCount(w1.trace) == StopCount(w.trace) + 1
                  && w1.warnings == w.warnings + (if |w.trace| in ext.failing then [CleanupStopFailed(name)] else []))
            && (!started ==> w1 == w)
  {
    if started {
      StopCountAppend(w.trace, Call(Stop(runtime, name), None, |w.trace| !in ext.failing));
    }
  }

  // ---------------------------------------------------------------------------
  // After the keys: vault, body, cleanup
  // ---------------------------------------------------------------------------

  /** Whether the container is up once the `try` body has run from trace
      position `m`: not skipped, built and started by the commands at `m`
      and `m + 2`. */
  predicate StartedAt(ext: Externals, skipContainer: bool, m: nat) {
    !skipContainer && m !in ext.failing && m + 2 !in ext.failing
  }

  /** After the keys: the run completes exactly when roles and collections
      are in place and every command but a stop succeeded; it never exits
      with a code other than 0. */
  lemma AfterKeysSucceeds(w: World, ext: Externals, root: Path, runtime: string, name: string, hostPort: int,
                          skipContainer: bool, limit: Option<string>, key: Path)
    ensures var (w1, out) := AfterKeys(w, ext, root, runtime, name, hostPort, skipContainer, limit, key);
            var m := |w.trace|;
            && m <= |w1.trace| && w.trace <= w1.trace
            && w1.environ == w.environ
            && (out.Exit? ==> out.code == ExitSuccess)
            && (out == Exit(ExitSuccess) <==> ext.rolesOk && ext.collectionsOk && SucceededFrom(w1.trace, m))
  {
    var m := |w.trace|;
    VaultTrace(w, root);
    var (w1, vault) := Vault(w, root);
    BodyFrame(w1, ext, root, runtime, VolumeOption(runtime), name, hostPort, skipContainer, limit, key, vault);
    BodySucceeds(w1, ext, root, runtime, VolumeOption(runtime), name, hostPort, skipContainer, limit, key, vault);
    var (w2, started, err) := Body(w1, ext, root, runtime, VolumeOption(runtime), name, hostPort, skipContainer, limit, key, vault);
    CleanupKeepsSuccess(w2, ext, runtime, name, started, m);
  }

  /** After the keys, with the container started: the last command stops
      it, two stops in all, and a failed stop only logs a warning. */
  lemma AfterKeysStopsStarted(w: World, ext: Externals, root: Path, runtime: string, name: string, hostPort: int,
                              skipContainer: bool, limit: Option<string>, key: Path)
    requires StartedAt(ext, skipContainer, |w.trace|)
    ensures var (w1, out) := AfterKeys(w, ext, root, runtime, name, hostPort, skipContainer, limit, key);
            && |w.trace| < |w1.trace|
            && EndsWithStop(w1.trace, ext, runtime, name)
            && StopCount(w1.trace) == StopCount(w.trace) + 2
            && WarnsOnFailedStop(w, w1, ext, name)
  {
    VaultTrace(w, root);
    var (w1, vault) := Vault(w, root);
    BodyFrame(w1, ext, root, runtime, VolumeOption(runtime), name, hostPort, skipContainer, limit, key, vault);
    BodyStops(w1, ext, root, runtime, VolumeOption(runtime), name, hostPort, skipContainer, limit, key, vault);
    var (w2, started, err) := Body(w1, ext, root, runtime, VolumeOption(runtime), name, hostPort, skipContainer, limit, key, vault);
    CleanupStops(w2, ext, runtime, name, started);
  }

  /** After the keys, with the container not started: no stop follows the
      `try` body, which issued the pre-start stop only if the image was
      built, and no warning is logged. */
  lemma AfterKeysStopsNotStarted(w: World, ext: Externals, root: Path, runtime: string, name: string, hostPort: int,
                                 skipContainer: bool, limit: Option<string>, key: Path)
    requires !StartedAt(ext, skipContainer, |w.trace|)
    ensures var (w1, out) := AfterKeys(w, ext, root, runtime, name, hostPort, skipContainer, limit, key);
            && w.trace <= w1.trace
            && NoFinalStopAfter(w1.trace, |w.trace|)
            && StopCount(w1.trace) == StopCount(w.trace) + (if !skipContainer && |w.trace| !in ext.failing then 1 else 0)
            && w1.warnings == w.warnings
  {
    VaultTrace(w, root);
    var (w1, vault) := Vault(w, root);
    BodyFrame(w1, ext, root, runtime, VolumeOption(runtime), name, hostPort, skipContainer, limit, key, vault);
    BodyStops(w1, ext, root, runtime, VolumeOption(runtime), name, hostPort, skipContainer, limit, key, vault);
    var (w2, started, err) := Body(w1, ext, root, runtime, VolumeOption(runtime), name, hostPort, skipContainer, limit, key, vault);
    CleanupStops(w2, ext, runtime, name, started);
  }

  // ---------------------------------------------------------------------------
  // Keys first
  // ---------------------------------------------------------------------------

  /** Whether the `ssh-keygen` call at trace position `n` succeeded and left
      the public key behind. */
  predicate KeysMade(ext: Externals, root: Path, n: nat) {
    n !in ext.failing && n in ext.writes && KeyFilesUnder(root, KeyBasename).publicKey in ext.writes[n]
  }

  lemma SucceededStep(t: seq<Call>, n: nat)
    requires n < |t|
    ensures SucceededFrom(t, n) <==> (IsStop(t[n]) || t[n].ok) && SucceededFrom(t, n + 1)
  {
  }

  /** Provisioning starts with `ssh-keygen`, only appends to the trace and,
      when the keys cannot be made, stops right there by raising. */
  lemma ProvisionFrame(w: World, ext: Externals, root: Path, runtime: string, name: string, hostPort: int,
                       skipContainer: bool, limit: Option<string>)
    ensures var (w1, out) := Provision(w, ext, root, runtime, name, hostPort, skipContainer, limit);
            var n := |w.trace|;
            && n < |w1.trace| && w.trace <= w1.trace
            && w1.trace[n] == Call(Keygen(KeyFilesUnder(root, KeyBasename).privateKey), None, n !in ext.failing)
            && w1.environ == w.environ
            && (!KeysMade(ext, root, n) ==> |w1.trace| == n + 1 && w1.warnings == w.warnings && out.Raised?)
  {
    SshKeysTrace(w, ext, root, KeyBasename);
    var (wk, keys) := SshKeys(w, ext, root, KeyBasename);
    if keys.Success? {
      AfterKeysSucceeds(wk, ext, root, runtime, name, hostPort, skipContainer, limit, keys.value.0);
    }
  }

  /** Provisioning exits with 0 exactly when the keys are made, roles and
      collections are in place and every command but a stop succeeded;
      every other ending raises. */
  lemma ProvisionSucceeds(w: World, ext: Externals, root: Path, runtime: string, name: string, hostPort: int,
                          skipContainer: bool, limit: Option<string>)
    ensures var (w1, out) := Provision(w, ext, root, runtime, name, hostPort, skipContainer, limit);
            && (out.Exit? ==> out.code == ExitSuccess)
            && (out == Exit(ExitSuccess) <==>
                  KeysMade(ext, root, |w.trace|) && ext.rolesOk && ext.collectionsOk && SucceededFrom(w1.trace, |w.trace|))
  {
    var n := |w.trace|;
    SshKeysTrace(w, ext, root, KeyBasename);
    var (wk, keys) := SshKeys(w, ext, root, KeyBasename);
    if keys.Success? {
      AfterKeysSucceeds(wk, ext, root, runtime, name, hostPort, skipContainer, limit, keys.value.0);
      var (w1, out) := AfterKeys(wk, ext, root, runtime, name, hostPort, skipContainer, limit, keys.value.0);
      assert w1.trace[n] == wk.trace[n];
      SucceededStep(w1.trace, n);
    }
  }

  /** With the container started, provisioning ends with the stop of the
      `finally`. */
  lemma ProvisionEndsWithStop(w: World, ext: Externals, root: Path, runtime: string, name: string, hostPort: int,
                              skipContainer: bool, limit: Option<string>)
    requires KeysMade(ext, root, |w.trace|) && StartedAt(ext, skipContainer, |w.trace| + 1)
    ensures var (w1, out) := Provision(w, ext, root, runtime, name, hostPort, skipContainer, limit);
            |w.trace| < |w1.trace| && EndsWithStop(w1.trace, ext, runtime, name)
  {
    SshKeysTrace(w, ext, root, KeyBasename);
    var (wk, keys) := SshKeys(w, ext, root, KeyBasename);
    AfterKeysStopsStarted(wk, ext, root, runtime, name, hostPort, skipContainer, limit, keys.value.0);
  }

  /** With the container started, provisioning stops it twice: before
      starting it and in the `finally`. */
  lemma ProvisionStopCountStarted(w: World, ext: Externals, root: Path, runtime: string, name: string, hostPort: int,
                                  skipContainer: bool, limit: Option<string>)
    requires KeysMade(ext, root, |w.trace|) && StartedAt(ext, skipContainer, |w.trace| + 1)
    ensures var (w1, out) := Provision(w, ext, root, runtime, name, hostPort, skipContainer, limit);
            StopCount(w1.trace) == StopCount(w.trace) + 2
  {
    SshKeysTrace(w, ext, root, KeyBasename);
    var (wk, keys) := SshKeys(w, ext, root, KeyBasename);
    StopCountAppend(w.trace, wk.trace[|w.trace|]);
    AfterKeysStopsStarted(wk, ext, root, runtime, name, hostPort, skipContainer, limit, keys.value.0);
  }

  /** With the container started, the only warning provisioning logs is a
      failure of the final stop. */
  lemma ProvisionWarnsStarted(w: World, ext: Externals, root: Path, runtime: string, name: string, hostPort: int,
                              skipContainer: bool, limit: Option<string>)
    requires KeysMade(ext, root, |w.trace|) && StartedAt(ext, skipContainer, |w.trace| + 1)
    ensures var w1 := Provision(w, ext, root, runtime, name, hostPort, skipContainer, limit).0;
            && |w.trace| < |w1.trace|
            && WarnsOnFailedStop(w, w1, ext, name)
  {
    SshKeysTrace(w, ext, root, KeyBasename);
    var (wk, keys) := SshKeys(w, ext, root, KeyBasename);
    AfterKeysStopsStarted(wk, ext, root, runtime, name, hostPort, skipContainer, limit, keys.value.0);
  }

  /** Without a started container, provisioning does not end on a stop and
      logs no warning; the only stop is the pre-start one, issued once the
      image is built. */
  lemma ProvisionStopsNotStarted(w: World, ext: Externals, root: Path, runtime: string, name: string, hostPort: int,
                                 skipContainer: bool, limit: Option<string>)
    requires !(KeysMade(ext, root, |w.trace|) && StartedAt(ext, skipContainer, |w.trace| + 1))
    ensures var (w1, out) := Provision(w, ext, root, runtime, name, hostPort, skipContainer, limit);
            var n := |w.trace|;
            && n < |w1.trace|
            && NoFinalStopAfter(w1.trace, n)
            && StopCount(w1.trace) == StopCount(w.trace) + (if KeysMade(ext, root, n) && !skipContainer && n + 1 !in ext.failing then 1 else 0)
            && w1.warnings == w.warnings
  {
    var n := |w.trace|;
    SshKeysTrace(w, ext, root, KeyBasename);
    var (wk, keys) := SshKeys(w, ext, root, KeyBasename);
    StopCountAppend(w.trace, wk.trace[n]);
    if keys.Success? {
      AfterKeysStopsNotStarted(wk, ext, root, runtime, name, hostPort, skipContainer, limit, keys.value.0);
      var (w1, out) := AfterKeys(wk, ext, root, runtime, name, hostPort, skipContainer, limit, keys.value.0);
      assert Provision(w, ext, root, runtime, name, hostPort, skipContainer, limit).0 == w1;
      if |w1.trace| == |wk.trace| {
        assert w1.trace[|w1.trace| - 1] == wk.trace[n];
      }
    }
  }

  /** Without a container, provisioning runs `ssh-keygen` and, once keys,
      roles and collections are in place, the playbook confined to the
      given limit or else to `localhost`; nothing else. */
  lemma ProvisionSkip(w: World, ext: Externals, root: Path, runtime: string, name: string, hostPort: int, limit: Option<string>)
    ensures var (w1, out) := Provision(w, ext, root, runtime, name, hostPort, true, limit);
            var n := |w.trace|;
            var key := KeyFilesUnder(root, KeyBasename).privateKey;
            var playbook := RunPlaybook(PathJoin(root, InventoryFile), PathJoin(root, PlaybookFile), PlaybookLimit(true, limit));
            && w1.trace == w.trace + [Call(Keygen(key), None, n !in ext.failing)]
                         + (if KeysMade(ext, root, n) && ext.rolesOk && ext.collectionsOk
                            then [Call(playbook, Some(w.environ + ExtraEnv(key, PathJoin(root, VaultFileName))), n + 1 !in ext.failing)]
                            else [])
            && w1.warnings == w.warnings
  {
    SshKeysTrace(w, ext, root, KeyBasename);
    var (wk, keys) := SshKeys(w, ext, root, KeyBasename);
    if keys.Success? {
      VaultTrace(wk, root);
      var (wv, vault) := Vault(wk, root);
      AnsibleStepsOutcome(wv, ext, root, true, limit, keys.value.0, vault);
    }
  }

  /** Without a container and without a limit of its own, the playbook
      command line ends in `-l localhost`. */
  lemma SkipWithoutLimitIsLocal(inventory: Path, playbook: Path, limit: Option<string>)
    requires !Given(limit)
    ensures var argv := Argv(RunPlaybook(inventory, playbook, PlaybookLimit(true, limit)));
            |argv| == 6 && argv[4..] == ["-l", "localhost"]
  {
    ArgvShapes(RunPlaybook(inventory, playbook, PlaybookLimit(true, limit)));
  }

  // ---------------------------------------------------------------------------
  // run
  // ---------------------------------------------------------------------------

  /** The host port `run` settles on, if it parses. */
  function HostPort(w: World, args: RunArgs): Option<int> {
    ParseInt(Configure(w.files, args).port.value)
  }

  /** The container engine `run` settles on, if one is installed. */
  function Engine(w: World, ext: Externals, args: RunArgs): Option<string> {
    FirstAvailable(SearchOrder(Some(Configure(w.files, args).runtime.value)), ext.executables)
  }

  /** Whether `os.environ` accepts every setting of the `.env` file. */
  predicate Accepted(w: World, args: RunArgs) {
    AllSettable(Configure(w.files, args).settings)
  }

  /** The prerequisites `run` checks before provisioning anything. */
  predicate Ready(w: World, ext: Externals, args: RunArgs) {
    Accepted(w, args) && HostPort(w, args).Some? && Engine(w, ext, args).Some? && "ansible" in ext.executables
  }

  /** `run` raises when `os.environ` rejects a setting, before it logs a
      warning; it exits with 4 for a port that is not an integer, with 4
      (and a warning) when no engine is installed, with 2 without `ansible`;
      and in each of these cases it runs no command. */
  lemma EarlyExits(w: World, ext: Externals, args: RunArgs, root: Path)
    ensures var (w1, out) := RunSpec(w, ext, args, root);
            var c := Configure(w.files, args);
            var w0 := Configured(w, c);
            && (!Accepted(w, args) ==>
                  && out.Raised? && out.error.EnvRejected? && out.error.key in c.settings
                  && !Settable(out.error.key, c.settings[out.error.key])
                  && w1.trace == w.trace && w1.files == w.files && w1.warnings == w.warnings)
            && (Accepted(w, args) && HostPort(w, args).None? ==> w1 == w0 && out == Exit(ExitNoRuntime))
            && (Accepted(w, args) && HostPort(w, args).Some? && Engine(w, ext, args).None? ==>
                  w1 == w0.(warnings := w0.warnings + [NoRuntimeFound]) && out == Exit(ExitNoRuntime))
            && (Accepted(w, args) && HostPort(w, args).Some? && Engine(w, ext, args).Some? && "ansible" !in ext.executables ==>
                  w1 == w0 && out == Exit(ExitMissingDependency))
            && (!Ready(w, ext, args) ==> w1.trace == w.trace)
  {
    SetEnvOutcome(w.environ, Configure(w.files, args).settings);
  }

  /** Past the checks, `run` is provisioning in the configured world. */
  lemma RunProvisions(w: World, ext: Externals, args: RunArgs, root: Path)
    requires Ready(w, ext, args)
    ensures var c := Configure(w.files, args);
            RunSpec(w, ext, args, root)
              == Provision(Configured(w, c), ext, root, Engine(w, ext, args).value, c.name.value,
                           HostPort(w, args).value, args.skipContainer, args.limit)
  {
    SetEnvOutcome(w.environ, Configure(w.files, args).settings);
  }

  /** Whether `run` gets as far as a running container: the checks pass,
      the keys are made, and the image is built and the container started. */
  predicate ContainerStarted(w: World, ext: Externals, args: RunArgs, root: Path) {
    Ready(w, ext, args) && KeysMade(ext, root, |w.trace|) && StartedAt(ext, args.skipContainer, |w.trace| + 1)
  }

  /** `run` exits with 0 exactly when the checks pass, the keys are made,
      roles and collections are in place and every command but a stop
      succeeded; otherwise it exits with 2 or 4 or raises. */
  lemma RunSucceeds(w: World, ext: Externals, args: RunArgs, root: Path)
    ensures var (w1, out) := RunSpec(w, ext, args, root);
            && (out.Exit? ==> out.code in {ExitSuccess, ExitMissingDependency, ExitNoRuntime})
            && (out == Exit(ExitSuccess) <==>
                  && Ready(w, ext, args) && KeysMade(ext, root, |w.trace|)
                  && ext.rolesOk && ext.collectionsOk && SucceededFrom(w1.trace, |w.trace|))
  {
    EarlyExits(w, ext, args, root);
    if Ready(w, ext, args) {
      RunProvisions(w, ext, args, root);
      var c := Configure(w.files, args);
      ProvisionSucceeds(Configured(w, c), ext, root, Engine(w, ext, args).value, c.name.value,
                        HostPort(w, args).value, args.skipContainer, args.limit);
    }
  }

  /** A started container is stopped by the last command of `run`. */
  lemma RunEndsWithStop(w: World, ext: Externals, args: RunArgs, root: Path)
    requires ContainerStarted(w, ext, args, root)
    ensures var (w1, out) := RunSpec(w, ext, args, root);
            var c := Configure(w.files, args);
            |w.trace| < |w1.trace| && EndsWithStop(w1.trace, ext, Engine(w, ext, args).value, c.name.value)
  {
    RunProvisions(w, ext, args, root);
    var c := Configure(w.files, args);
    ProvisionEndsWithStop(Configured(w, c), ext, root, Engine(w, ext, args).value, c.name.value,
                          HostPort(w, args).value, args.skipContainer, args.limit);
  }

  /** A started container is stopped twice: before it is started and by
      the `finally`. */
  lemma RunStopCountStarted(w: World, ext: Externals, args: RunArgs, root: Path)
    requires ContainerStarted(w, ext, args, root)
    ensures var (w1, out) := RunSpec(w, ext, args, root);
            var c := Configure(w.files, args);
            StopCount(w1.trace) == StopCount(w.trace) + 2
  {
    RunProvisions(w, ext, args, root);
    var c := Configure(w.files, args);
    ProvisionStopCountStarted(Configured(w, c), ext, root, Engine(w, ext, args).value, c.name.value,
                          HostPort(w, args).value, args.skipContainer, args.limit);
  }

  /** A failure to stop a started container is only a warning, the last
      one `run` logs. */
  lemma RunWarnsStarted(w: World, ext: Externals, args: RunArgs, root: Path)
    requires ContainerStarted(w, ext, args, root)
    ensures var w1 := RunSpec(w, ext, args, root).0;
            var c := Configure(w.files, args);
            && WarnsOnFailedStop(Configured(w, c), w1, ext, c.name.value)
  {
    RunProvisions(w, ext, args, root);
    ProvisionWarnsStarted(Configured(w, Configure(w.files, args)), ext, root, Engine(w, ext, args).value,
                          Configure(w.files, args).name.value, HostPort(w, args).value, args.skipContainer, args.limit);
  }

  /** Without a started container, `run` does not end on a stop and logs no
      warning beyond the overrides and a missing engine, and none at all
      when a setting is rejected. */
  lemma RunLeavesNoContainer(w: World, ext: Externals, args: RunArgs, root: Path)
    requires !ContainerStarted(w, ext, args, root)
    ensures var (w1, out) := RunSpec(w, ext, args, root);
            var c := Configure(w.files, args);
            && NoFinalStopAfter(w1.trace, |w.trace|)
            && w1.warnings == if !Accepted(w, args) then w.warnings
                              else Configured(w, c).warnings
                                   + (if HostPort(w, args).Some? && Engine(w, ext, args).None? then [NoRuntimeFound] else [])
  {
    EarlyExits(w, ext, args, root);
    if Ready(w, ext, args) {
      RunProvisions(w, ext, args, root);
      var c := Configure(w.files, args);
      ProvisionStopsNotStarted(Configured(w, c), ext, root, Engine(w, ext, args).value, c.name.value,
                               HostPort(w, args).value, args.skipContainer, args.limit);
    }
  }

  /** With `--skip-container`, `run` issues no container command: only
      `ssh-keygen` and the playbook, confined to the given limit or else to
      `localhost`. */
  lemma RunSkipContainer(w: World, ext: Externals, args: RunArgs, root: Path)
    requires args.skipContainer && Ready(w, ext, args)
    ensures var (w1, out) := RunSpec(w, ext, args, root);
            var n := |w.trace|;
            var key := KeyFilesUnder(root, KeyBasename).privateKey;
            var playbook := RunPlaybook(PathJoin(root, InventoryFile), PathJoin(root, PlaybookFile), PlaybookLimit(true, args.limit));
            var env := Configured(w, Configure(w.files, args)).environ + ExtraEnv(key, PathJoin(root, VaultFileName));
            w1.trace == w.trace + [Call(Keygen(key), None, n !in ext.failing)]
                        + (if KeysMade(ext, root, n) && ext.rolesOk && ext.collectionsOk
                           then [Call(playbook, Some(env), n + 1 !in ext.failing)]
                           else [])
  {
    RunProvisions(w, ext, args, root);
    var c := Configure(w.files, args);
    ProvisionSkip(Configured(w, c), ext, root, Engine(w, ext, args).value, c.name.value, HostPort(w, args).value, args.limit);
  }

  /** The `.env` settings end up in the process environment when it accepts
      them all, and the override warnings come first, runtime, then name,
      then port; a rejected setting leaves variables outside the file as
      they were. */
  lemma RunLoadsSettings(w: World, ext: Externals, args: RunArgs, root: Path)
    ensures var (w1, out) := RunSpec(w, ext, args, root);
            var c := Configure(w.files, args);
            && (Accepted(w, args) ==>
                  && w1.environ == w.environ + c.settings
                  && w.warnings + Warnings(c.runtime) + Warnings(c.name) + Warnings(c.port) <= w1.warnings)
            && (forall k :: k in w1.environ && k !in c.settings ==> k in w.environ && w1.environ[k] == w.environ[k])
  {
    EarlyExits(w, ext, args, root);
    SetEnvOutcome(w.environ, Configure(w.files, args).settings);
    if Ready(w, ext, args) {
      RunProvisions(w, ext, args, root);
      var c := Configure(w.files, args);
      var w0 := Configured(w, c);
      var runtime, name, port := Engine(w, ext, args).value, c.name.value, HostPort(w, args).value;
      ProvisionFrame(w0, ext, root, runtime, name, port, args.skipContainer, args.limit);
      if ContainerStarted(w, ext, args, root) {
        ProvisionWarnsStarted(w0, ext, root, runtime, name, port, args.skipContainer, args.limit);
      } else {
        ProvisionStopsNotStarted(w0, ext, root, runtime, name, port, args.skipContainer, args.limit);
      }
    }
  }

  /** Without a port on the command line or in the `.env` file, the default
      port 2222 is used: its text form parses back. */
  lemma DefaultPortUsed(w: World, args: RunArgs)
    requires !Given(args.containerHostPort)
    requires !Given(Lookup(LoadEnv(w.files, args.envFile), "CONTAINER_HOST_PORT"))
    ensures HostPort(w, args) == Some(2222)
  {
    Activation.HostPortText();
    ParseIntOfIntToString(Activation.DefaultHostPort);
  }
}
