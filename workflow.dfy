/**
 * `run`: resolve the container settings, check the prerequisites, then
 * provision keys, vault, container and playbook, stopping the container
 * afterwards whatever happened in between.
 */
module Workflow {
  import opened Wrappers
  import opened Text
  import opened Paths
  import opened EnvFile
  import opened Effects
  import opened Runtime
  import opened Steps
  import opened Activation

  /** The `RETURN_CODES` that `run` returns. */
  const ExitSuccess := 0
  const ExitMissingDependency := 2
  const ExitNoRuntime := 4

  /** The command-line arguments `run` reads. */
  datatype RunArgs = RunArgs(
    envFile: Path,
    containerRuntime: Option<string>,
    containerName: Option<string>,
    containerHostPort: Option<string>,
    skipContainer: bool,
    limit: Option<string>)

  /** How `run` ends: with an exit code, or by raising. */
  datatype Outcome = Exit(code: int) | Raised(error: Error)

  // ---------------------------------------------------------------------------
  // Settings
  // ---------------------------------------------------------------------------

  /** A setting as resolved: its value and the override warning, if any. */
  datatype Resolution = Resolution(value: string, warning: Option<Warning>)

  function Lookup(settings: Settings, key: string): Option<string> {
    if key in settings then Some(settings[key]) else None
  }

  /** `cli or settings.get(key) or default`, with a warning when a CLI value
      replaces a different value from the `.env` file. */
  function Resolve(key: string, cli: Option<string>, settings: Settings, default: string): (r: Resolution)
    ensures Given(cli) ==> r.value == cli.value
    ensures !Given(cli) && Given(Lookup(settings, key)) ==> r.value == settings[key]
    ensures !Given(cli) && !Given(Lookup(settings, key)) ==> r.value == default
    ensures r.warning.Some? <==> Given(cli) && Given(Lookup(settings, key)) && cli.value != settings[key]
    ensures r.warning.Some? ==> r.warning.value == Override(key, settings[key], cli.value)
  {
    var fromFile := Lookup(settings, key);
    var value := if Given(cli) then cli.value else if Given(fromFile) then fromFile.value else default;
    if Given(cli) && Given(fromFile) && cli.value != fromFile.value then
      Resolution(value, Some(Override(key, fromFile.value, cli.value)))
    else
      Resolution(value, None)
  }

  /** A resolved setting is never empty when its default is not. */
  lemma ResolvedNotEmpty(key: string, cli: Option<string>, settings: Settings, default: string)
    requires default != ""
    ensures Resolve(key, cli, settings, default).value != ""
  {
  }

  function Warnings(r: Resolution): seq<Warning> {
    if r.warning.Some? then [r.warning.value] else []
  }

  /** What `run` derives from the `.env` file and the command line. */
  datatype Config = Config(settings: Settings, runtime: Resolution, name: Resolution, port: Resolution)

  function Configure(files: map<Path, string>, args: RunArgs): Config {
    var settings := LoadEnv(files, args.envFile);
    Config(
      settings,
      Resolve("CONTAINER_RUNTIME", args.containerRuntime, settings, DefaultRuntime),
      Resolve("CONTAINER_NAME", args.containerName, settings, DefaultContainerName),
      Resolve("CONTAINER_HOST_PORT", args.containerHostPort, settings, IntToString(DefaultHostPort)))
  }

  /** The settings are loaded into the process environment and the override
      warnings logged, runtime first, then name, then port. */
  function Configured(w: World, c: Config): World {
    w.(environ := w.environ + c.settings,
       warnings := w.warnings + Warnings(c.runtime) + Warnings(c.name) + Warnings(c.port))
  }

  // ---------------------------------------------------------------------------
  // set_env_vars
  // ---------------------------------------------------------------------------

  /** Whether `os.environ[k] = v` accepts an entry: the key is not empty and
      holds no `=`, and neither side holds a NUL character. */
  predicate Settable(k: string, v: string) {
    k != "" && '=' !in k && '\0' !in k && '\0' !in v
  }

  predicate AllSettable(data: Settings) {
    forall k :: k in data ==> Settable(k, data[k])
  }

  /** `environ` once the entries of the first `n` keys of `ks` are copied
      into it from `data`, in that order. */
  function CopyEntries(environ: Settings, data: Settings, ks: seq<string>, n: nat): Settings
    requires n <= |ks|
    requires forall m :: 0 <= m < |ks| ==> ks[m] in data
  {
    if n == 0 then environ else CopyEntries(environ, data, ks, n - 1)[ks[n - 1] := data[ks[n - 1]]]
  }

  /** The copied keys take their values from `data`; every other key keeps
      what `environ` had. */
  lemma {:induction false} CopyEntriesValues(environ: Settings, data: Settings, ks: seq<string>, n: nat)
    requires n <= |ks|
    requires forall m :: 0 <= m < |ks| ==> ks[m] in data
    ensures var e := CopyEntries(environ, data, ks, n);
            && (forall k :: k in ks[..n] ==> k in e && e[k] == data[k])
            && (forall k :: k !in ks[..n] ==> (k in e <==> k in environ) && (k in environ ==> e[k] == environ[k]))
  {
    if n > 0 {
      CopyEntriesValues(environ, data, ks, n - 1);
      assert ks[..n] == ks[..n - 1] + [ks[n - 1]];
    }
  }

  /** The first index of `ks` from `i` on whose entry `os.environ` rejects,
      or `|ks|`. */
  function FirstRejected(ks: seq<string>, data: Settings, i: nat): (j: nat)
    requires i <= |ks|
    requires forall m :: 0 <= m < |ks| ==> ks[m] in data
    ensures i <= j <= |ks|
    ensures forall m :: i <= m < j ==> Settable(ks[m], data[ks[m]])
    ensures j < |ks| ==> !Settable(ks[j], data[ks[j]])
    decreases |ks| - i
  {
    if i == |ks| || !Settable(ks[i], data[ks[i]]) then i else FirstRejected(ks, data, i + 1)
  }

  /** The entries of `data` for the keys `ks` copied into `environ` one by
      one; the copying stops at the first entry `os.environ` rejects, which
      is returned. */
  function CopyUntilRejected(environ: Settings, data: Settings, ks: seq<string>): (Settings, Option<string>)
    requires forall m :: 0 <= m < |ks| ==> ks[m] in data
  {
    var j := FirstRejected(ks, data, 0);
    (CopyEntries(environ, data, ks, j), if j < |ks| then Some(ks[j]) else None)
  }

  /** `set_env_vars`: the settings copied into `environ`, keys ascending. */
  function SetEnv(environ: Settings, data: Settings): (Settings, Option<string>) {
    CopyUntilRejected(environ, data, SortedKeys(data.Keys))
  }

  /** A map that agrees with `data` on its keys and with `environ`
      elsewhere is `environ` updated with `data`. */
  lemma MergedEnviron(environ: Settings, data: Settings, e: Settings)
    requires forall k :: k in data ==> k in e && e[k] == data[k]
    requires forall k :: k !in data ==> (k in e <==> k in environ) && (k in environ ==> e[k] == environ[k])
    ensures e == environ + data
  {
  }

  /** Every entry is copied exactly when each one is accepted; otherwise the
      key returned is one `os.environ` rejects. Keys outside `data` keep
      their values. */
  lemma SetEnvOutcome(environ: Settings, data: Settings)
    ensures var (e, rejected) := SetEnv(environ, data);
            && (rejected.None? <==> AllSettable(data))
            && (rejected.None? ==> e == environ + data)
            && (rejected.Some? ==> rejected.value in data && !Settable(rejected.value, data[rejected.value]))
            && (forall k :: k in e && k !in data ==> k in environ && e[k] == environ[k])
  {
    CopyUntilRejectedOutcome(environ, data, SortedKeys(data.Keys));
  }

  lemma CopyUntilRejectedOutcome(environ: Settings, data: Settings, ks: seq<string>)
    requires forall m :: 0 <= m < |ks| ==> ks[m] in data
    requires forall k :: k in data ==> k in ks
    ensures var (e, rejected) := CopyUntilRejected(environ, data, ks);
            && (rejected.None? <==> AllSettable(data))
            && (rejected.None? ==> e == environ + data)
            && (rejected.Some? ==> rejected.value in data && !Settable(rejected.value, data[rejected.value]))
            && (forall k :: k in e && k !in data ==> k in environ && e[k] == environ[k])
  {
    var j := FirstRejected(ks, data, 0);
    CopyEntriesValues(environ, data, ks, j);
    forall k | k in ks[..j] ensures k in data {
    }
    if j == |ks| {
      assert ks[..j] == ks;
      forall k | k in data ensures Settable(k, data[k]) {
        var m :| 0 <= m < |ks| && ks[m] == k;
      }
      MergedEnviron(environ, data, CopyEntries(environ, data, ks, j));
    }
  }

  // ---------------------------------------------------------------------------
  // Provisioning
  // ---------------------------------------------------------------------------

  /** The variables `run_playbook` adds to the environment. */
  function ExtraEnv(key: Path, vault: Path): Settings {
    map["ANSIBLE_PRIVATE_KEY_FILE" := key, "ANSIBLE_HOST_KEY_CHECKING" := "False", "ANSIBLE_VAULT_PASSWORD_FILE" := vault]
  }

  /** The limit handed to `run_playbook`: without a container and without a
      limit of its own the run is confined to `localhost`. */
  function PlaybookLimit(skipContainer: bool, limit: Option<string>): (l: Option<string>)
    ensures skipContainer && !Given(limit) ==> l == Some("localhost")
    ensures !(skipContainer && !Given(limit)) ==> l == limit
    ensures Given(l) <==> skipContainer || Given(limit)
  {
    if skipContainer && !Given(limit) then Some("localhost") else limit
  }

  /** The body of the `try`: the container unless skipped, then the Ansible
      steps. Returns whether the container was started and the error
      raised, if any. */
  function Body(w: World, ext: Externals, root: Path, runtime: string, volumeOpt: string, name: string, hostPort: int,
                skipContainer: bool, limit: Option<string>, key: Path, vault: Path): (World, bool, Option<Error>)
  {
    var (w1, err) := MaybeContainer(w, ext, runtime, volumeOpt, root, name, hostPort, skipContainer);
    if err.Some? then (w1, false, err)
    else
      var (w2, err2) := AnsibleSteps(w1, ext, root, skipContainer, limit, key, vault);
      (w2, !skipContainer, err2)
  }

  /** Roles, collections and the playbook with the key, vault and limit. */
  function AnsibleSteps(w: World, ext: Externals, root: Path, skipContainer: bool, limit: Option<string>, key: Path, vault: Path)
    : (World, Option<Error>)
  {
    if !ext.rolesOk then (w, Some(RolesFailed))
    else if !ext.collectionsOk then (w, Some(CollectionsFailed))
    else
      var inventory, playbook := PathJoin(root, InventoryFile), PathJoin(root, PlaybookFile);
      var l := PlaybookLimit(skipContainer, limit);
      var (w1, ok) := Playbook(w, ext, inventory, playbook, ExtraEnv(key, vault), l);
      (w1, if ok then None else Some(CommandFailed(RunPlaybook(inventory, playbook, l))))
  }

  /** `setup_container` unless `--skip-container` was given. */
  function MaybeContainer(w: World, ext: Externals, runtime: string, volumeOpt: string, root: Path, name: string, hostPort: int,
                          skipContainer: bool): (World, Option<Error>)
  {
    if skipContainer then (w, None) else Container(w, ext, runtime, volumeOpt, root, name, hostPort)
  }

  /** The `finally`: a started container is stopped; a failure to stop it
      is only a warning. */
  function Cleanup(w: World, ext: Externals, runtime: string, name: string, started: bool): World {
    if !started then w
    else
      var (w1, ok) := Invoke(w, ext, Stop(runtime, name), None);
      if ok then w1 else w1.(warnings := w1.warnings + [CleanupStopFailed(name)])
  }

  /** Everything after the prerequisites are checked. */
  function Provision(w: World, ext: Externals, root: Path, runtime: string, name: string, hostPort: int,
                     skipContainer: bool, limit: Option<string>): (World, Outcome)
  {
    var (w1, keys) := SshKeys(w, ext, root, KeyBasename);
    if keys.Failure? then (w1, Raised(keys.error))
    else AfterKeys(w1, ext, root, runtime, name, hostPort, skipContainer, limit, keys.value.0)
  }

  /** The vault, the `try` body and its `finally`. */
  function AfterKeys(w: World, ext: Externals, root: Path, runtime: string, name: string, hostPort: int,
                     skipContainer: bool, limit: Option<string>, key: Path): (World, Outcome)
  {
    var (w1, vault) := Vault(w, root);
    var (w2, started, err) := Body(w1, ext, root, runtime, VolumeOption(runtime), name, hostPort,
                                   skipContainer, limit, key, vault);
    (Cleanup(w2, ext, runtime, name, started), if err.Some? then Raised(err.value) else Exit(ExitSuccess))
  }

  /** `run(args)` with the playbook root `root`. */
  function RunSpec(w: World, ext: Externals, args: RunArgs, root: Path): (World, Outcome) {
    var c := Configure(w.files, args);
    var (environ, rejected) := SetEnv(w.environ, c.settings);
    if rejected.Some? then (w.(environ := environ), Raised(EnvRejected(rejected.value)))
    else Checked(Configured(w, c), ext, c, args, root)
  }

  /** `run` once its settings are resolved: the port, the container engine
      and `ansible` are checked before anything is provisioned. */
  function Checked(w: World, ext: Externals, c: Config, args: RunArgs, root: Path): (World, Outcome) {
    match ParseInt(c.port.value)
    case None => (w, Exit(ExitNoRuntime))
    case Some(hostPort) =>
      match FirstAvailable(SearchOrder(Some(c.runtime.value)), ext.executables)
      case None => (w.(warnings := w.warnings + [NoRuntimeFound]), Exit(ExitNoRuntime))
      case Some(runtime) =>
        if "ansible" !in ext.executables then (w, Exit(ExitMissingDependency))
        else Provision(w, ext, root, runtime, c.name.value, hostPort, args.skipContainer, args.limit)
  }
}
