/**
 * The host a sandbox command runs on: the commands handed to the
 * subprocess runner so far, the files, the process environment and the
 * warnings logged. Each operation of the sandbox updates these in place and
 * is proved to do what the matching pure definition says.
 */
module Sandbox {
  import opened Wrappers
  import opened Text
  import opened Paths
  import opened EnvFile
  import opened Effects
  import opened Runtime
  import opened Steps
  import opened Activation
  import opened Workflow

  class Host {
    var trace: seq<Call>
    var files: map<Path, string>
    var environ: Settings
    var warnings: seq<Warning>
    /** What lies outside the model: installed programs, failing commands,
        the files each command writes, the role and collection steps. */
    const ext: Externals

    /** The host as a value. */
    function State(): World
      reads this
    {
      World(trace, files, environ, warnings)
    }

    constructor(ext: Externals, files: map<Path, string>, environ: Settings)
      ensures State() == World([], files, environ, [])
      ensures this.ext == ext
    {
      this.ext := ext;
      this.trace := [];
      this.files := files;
      this.environ := environ;
      this.warnings := [];
    }

    /** `_run_subprocess`: run one command; whether it exited with status 0. */
    method RunSubprocess(command: Command, env: Option<Settings>) returns (ok: bool)
      modifies this
      ensures (State(), ok) == Invoke(old(State()), ext, command, env)
    {
      var n := |trace|;
      ok := n !in ext.failing;
      trace := trace + [Call(command, env, ok)];
      if n in ext.writes {
        files := files + ext.writes[n];
      }
    }

    /** `load_env_file`. */
    method LoadEnvFile(path: Path) returns (data: Settings)
      ensures data == LoadEnv(files, path)
    {
      data := EnvFile.LoadEnvFile(files, path);
    }

    /** `write_env_file`: the file holds exactly the serialised settings. */
    method WriteEnvFile(path: Path, values: Settings)
      modifies this
      ensures files == old(files)[path := Serialize(values)]
      ensures trace == old(trace) && environ == old(environ) && warnings == old(warnings)
    {
      files := files[path := Serialize(values)];
    }

    /** `set_env_vars`: the settings of the `.env` file are copied into the
        process environment one key at a time, until `os.environ` rejects
        one; that key is returned. */
    method SetEnvVars(path: Path) returns (rejected: Option<string>)
      modifies this
      ensures (environ, rejected) == SetEnv(old(environ), LoadEnv(old(files), path))
      ensures trace == old(trace) && files == old(files) && warnings == old(warnings)
    {
      var data := LoadEnvFile(path);
      rejected := CopyIntoEnviron(data, SortedKeys(data.Keys));
    }

    /** The loop of `set_env_vars` over the loaded settings `data`, keys in
        the order `ks`. */
    method CopyIntoEnviron(data: Settings, ks: seq<string>) returns (rejected: Option<string>)
      requires forall m :: 0 <= m < |ks| ==> ks[m] in data
      modifies this
      ensures (environ, rejected) == CopyUntilRejected(old(environ), data, ks)
      ensures trace == old(trace) && files == old(files) && warnings == old(warnings)
    {
      var n := 0;
      while n < |ks|
        invariant n <= |ks|
        invariant FirstRejected(ks, data, 0) == FirstRejected(ks, data, n)
        invariant environ == CopyEntries(old(environ), data, ks, n)
        invariant trace == old(trace) && files == old(files) && warnings == old(warnings)
      {
        var k := ks[n];
        if !Settable(k, data[k]) {
          return Some(k);
        }
        environ := environ[k := data[k]];
        n := n + 1;
      }
      rejected := None;
    }

    /** `activate`, once the virtual environment is settled: the `.env` file
        is rewritten with its old settings, the activation defaults over
        them and `VENV_PYTHON` when there is a virtual environment. */
    method Activate(envFile: Path, root: Path, venvPython: Option<Path>) returns (code: int)
      modifies this
      ensures code == ExitSuccess
      ensures files == old(files)[envFile := Serialize(ActivationSettings(LoadEnv(old(files), envFile), root, venvPython))]
      ensures trace == old(trace) && environ == old(environ) && warnings == old(warnings)
    {
      var envValues := LoadEnvFile(envFile);
      envValues := envValues + BuildActivationEnv(root);
      if venvPython.Some? {
        envValues := envValues["VENV_PYTHON" := venvPython.value];
      }
      WriteEnvFile(envFile, envValues);
      code := ExitSuccess;
    }

    /** `detect_container_runtime(preferred)`, with its warning when no
        engine is installed. */
    method DetectContainerRuntime(preferred: Option<string>) returns (runtime: Option<string>, volumeOpt: Option<string>)
      modifies this
      ensures runtime == FirstAvailable(SearchOrder(preferred), ext.executables)
      ensures runtime.Some? ==> volumeOpt == Some(VolumeOption(runtime.value))
      ensures runtime.None? ==> volumeOpt.None?
      ensures warnings == old(warnings) + (if runtime.None? then [NoRuntimeFound] else [])
      ensures trace == old(trace) && files == old(files) && environ == old(environ)
    {
      runtime, volumeOpt := Runtime.DetectContainerRuntime(ext.executables, preferred);
      if runtime.None? {
        warnings := warnings + [NoRuntimeFound];
      }
    }

    /** `setup_ssh_keys(base, basename)`. */
    method SetupSshKeys(base: Path, basename: string) returns (r: Result<(Path, Path), Error>)
      modifies this
      ensures (State(), r) == SshKeys(old(State()), ext, base, basename)
    {
      var kf := KeyFilesUnder(base, basename);
      if kf.privateKey in files {
        files := files - {kf.privateKey};
      }
      if kf.publicKey in files {
        files := files - {kf.publicKey};
      }
      assert files == old(files) - {kf.privateKey, kf.publicKey};
      var ok := RunSubprocess(Keygen(kf.privateKey), None);
      if !ok {
        return Failure(CommandFailed(Keygen(kf.privateKey)));
      }
      if kf.publicKey !in files {
        return Failure(FileMissing(kf.publicKey));
      }
      files := files[kf.authorizedKeys := files[kf.publicKey]];
      r := Success((kf.privateKey, kf.authorizedKeys));
    }

    /** `setup_vault(root)`. */
    method SetupVault(root: Path) returns (target: Path)
      modifies this
      ensures (State(), target) == Vault(old(State()), root)
    {
      target := PathJoin(root, VaultFileName);
      if target !in files {
        files := files[target := "password\n"];
      }
    }

    /** `setup_container(...)`; `None` when it completes. */
    method SetupContainer(runtime: string, volumeOpt: string, root: Path, name: string, hostPort: int)
        returns (err: Option<Error>)
      modifies this
      ensures (State(), err) == Container(old(State()), ext, runtime, volumeOpt, root, name, hostPort)
    {
      var built := RunSubprocess(Build(runtime, root, name), None);
      if !built {
        return Some(CommandFailed(Build(runtime, root, name)));
      }
      var _ := RunSubprocess(Stop(runtime, name), None);
      var start := Start(runtime, volumeOpt, root, name, hostPort);
      var started := RunSubprocess(start, None);
      err := if started then None else Some(CommandFailed(start));
    }

    /** `run_playbook(...)`: whether `ansible-playbook` succeeded. */
    method RunPlaybook(inventory: Path, playbook: Path, extraEnv: Settings, limit: Option<string>) returns (ok: bool)
      modifies this
      ensures (State(), ok) == Steps.Playbook(old(State()), ext, inventory, playbook, extraEnv, limit)
    {
      var env := environ + extraEnv;
      ok := RunSubprocess(Command.RunPlaybook(inventory, playbook, limit), Some(env));
    }

    /** The container settings `run` resolves from the `.env` settings and
        the command line, each override logged. */
    method ResolveSettings(args: RunArgs, settings: Settings) returns (c: Config)
      modifies this
      ensures c == Config(settings, Resolve("CONTAINER_RUNTIME", args.containerRuntime, settings, DefaultRuntime),
                          Resolve("CONTAINER_NAME", args.containerName, settings, DefaultContainerName),
                          Resolve("CONTAINER_HOST_PORT", args.containerHostPort, settings, IntToString(DefaultHostPort)))
      ensures State() == old(State()).(warnings := old(warnings) + Warnings(c.runtime) + Warnings(c.name) + Warnings(c.port))
    {
      var runtimePreference := Resolve("CONTAINER_RUNTIME", args.containerRuntime, settings, DefaultRuntime);
      warnings := warnings + Warnings(runtimePreference);
      var containerName := Resolve("CONTAINER_NAME", args.containerName, settings, DefaultContainerName);
      warnings := warnings + Warnings(containerName);
      var hostPortText := Resolve("CONTAINER_HOST_PORT", args.containerHostPort, settings, IntToString(DefaultHostPort));
      warnings := warnings + Warnings(hostPortText);
      c := Config(settings, runtimePreference, containerName, hostPortText);
    }

    /** `run(args)` with the playbook root `root`. */
    method Run(args: RunArgs, root: Path) returns (out: Outcome)
      modifies this
      ensures (State(), out) == RunSpec(old(State()), ext, args, root)
    {
      var settings := LoadEnvFile(args.envFile);
      var rejected := SetEnvVars(args.envFile);
      if rejected.Some? {
        return Raised(EnvRejected(rejected.value));
      }
      SetEnvOutcome(old(environ), settings);
      var c := ResolveSettings(args, settings);
      ghost var w0 := State();
      assert c == Configure(old(files), args) && w0 == Configured(old(State()), c);
      var hostPort := ParseInt(c.port.value);
      if hostPort.None? {
        return Exit(ExitNoRuntime);
      }
      var runtime, volumeOpt := DetectContainerRuntime(Some(c.runtime.value));
      if runtime.None? {
        return Exit(ExitNoRuntime);
      }
      assert State() == w0;
      if "ansible" !in ext.executables {
        return Exit(ExitMissingDependency);
      }
      out := Provision(root, runtime.value, volumeOpt.value, c.name.value, hostPort.value, args.skipContainer, args.limit);
    }

    /** The rest of `run` once the checks pass: keys, vault, then the
        `try` with its `finally`. */
    method Provision(root: Path, runtime: string, volumeOpt: string, name: string, hostPort: int,
                     skipContainer: bool, limit: Option<string>) returns (out: Outcome)
      requires volumeOpt == VolumeOption(runtime)
      modifies this
      ensures (State(), out) == Workflow.Provision(old(State()), ext, root, runtime, name, hostPort, skipContainer, limit)
    {
      var keys := SetupSshKeys(root, KeyBasename);
      if keys.Failure? {
        return Raised(keys.error);
      }
      ghost var w1 := State();
      var vaultPath := SetupVault(root);
      ghost var w2 := State();

      var containerStarted := false;
      var err: Option<Error> := None;
      if !skipContainer {
        err := SetupContainer(runtime, volumeOpt, root, name, hostPort);
        containerStarted := err.None?;
      }
      assert (State(), err) == MaybeContainer(w2, ext, runtime, volumeOpt, root, name, hostPort, skipContainer);
      if err.None? {
        ghost var w3 := State();
        if !ext.rolesOk {
          err := Some(RolesFailed);
        } else if !ext.collectionsOk {
          err := Some(CollectionsFailed);
        } else {
          var extraEnv := ExtraEnv(keys.value.0, vaultPath);
          var playbookLimit := PlaybookLimit(skipContainer, limit);
          var inventory, playbook := PathJoin(root, InventoryFile), PathJoin(root, PlaybookFile);
          var ok := RunPlaybook(inventory, playbook, extraEnv, playbookLimit);
          if !ok {
            err := Some(CommandFailed(Command.RunPlaybook(inventory, playbook, playbookLimit)));
          }
        }
        assert (State(), err) == AnsibleSteps(w3, ext, root, skipContainer, limit, keys.value.0, vaultPath);
      }
      assert (State(), containerStarted, err)
          == Body(w2, ext, root, runtime, volumeOpt, name, hostPort, skipContainer, limit, keys.value.0, vaultPath);
      ghost var w4 := State();

      // finally
      if containerStarted {
        var stopped := RunSubprocess(Stop(runtime, name), None);
        if !stopped {
          warnings := warnings + [CleanupStopFailed(name)];
        }
      }
      assert State() == Cleanup(w4, ext, runtime, name, containerStarted);
      out := if err.Some? then Raised(err.value) else Exit(ExitSuccess);
    }
  }
}
