/**
 * The world the sandbox acts on: the commands it has run, the files it can
 * see, its process environment and the warnings it has logged. What lies
 * outside the model (which programs are installed, which commands fail,
 * what they write) is fixed in advance by an `Externals` value.
 */
module Effects {
  import opened Wrappers
  import opened Text
  import opened Paths
  import opened EnvFile

  /** The commands a playbook run hands to the subprocess runner. */
  datatype Command =
    | Keygen(key: Path)
    | Build(runtime: string, root: Path, name: string)
    | Stop(runtime: string, name: string)
    | Start(runtime: string, volumeOpt: string, root: Path, name: string, hostPort: int)
    | RunPlaybook(inventory: Path, playbook: Path, limit: Option<string>)

  const SshDirName := "ssh_keys"
  const ContainerImage := "ansible_target:latest"
  const SshPort := 22

  /** The argument vector of each command. */
  function Argv(c: Command): seq<string> {
    match c
    case Keygen(key) =>
      ["ssh-keygen", "-q", "-t", "ed25519", "-N", "", "-C", "ansible@target", "-f", key]
    case Build(runtime, root, name) =>
      [runtime, "build", "--file", "containerfile", "--tag", name, root]
    case Stop(runtime, name) =>
      [runtime, "container", "stop", name]
    case Start(runtime, volumeOpt, root, name, hostPort) =>
      [runtime, "run", "--detach", "--hostname", name, "--name", name,
       "--publish", IntToString(hostPort) + ":" + IntToString(SshPort), "--rm",
       "--volume", PathJoin(root, SshDirName) + ":/root/.ssh" + volumeOpt, ContainerImage]
    case RunPlaybook(inventory, playbook, limit) =>
      ["ansible-playbook", "--inventory", inventory, playbook] + (if Given(limit) then ["-l", limit.value] else [])
  }

  /** Only a stop command has the shape `<engine> container stop <name>`;
      the playbook command carries `-l <limit>` exactly for a limit that is
      given and not empty. */
  lemma ArgvShapes(c: Command)
    ensures var a := Argv(c);
            && (c.Stop? <==> |a| == 4 && a[1] == "container" && a[2] == "stop")
            && (c.RunPlaybook? ==> a[..4] == ["ansible-playbook", "--inventory", c.inventory, c.playbook])
            && (c.RunPlaybook? && Given(c.limit) ==> a[4..] == ["-l", c.limit.value])
            && (c.RunPlaybook? && !Given(c.limit) ==> a[4..] == [])
  {
  }

  /** One command handed to the subprocess runner: what it runs, the
      environment passed explicitly (`None`: the process environment is
      inherited) and whether it exited with status zero. */
  datatype Call = Call(command: Command, env: Option<Settings>, ok: bool)

  /** The outside world, decided in advance: the programs `shutil.which`
      finds, the positions in the command trace of the commands that exit
      non-zero, the files each command leaves behind, and whether the role
      and collection set-up steps succeed. */
  datatype Externals = Externals(
    executables: set<string>,
    failing: set<nat>,
    writes: map<nat, map<Path, string>>,
    rolesOk: bool,
    collectionsOk: bool)

  /** Why a step raised. */
  datatype Error =
    | CommandFailed(command: Command)
    | FileMissing(path: Path)
    | RolesFailed
    | CollectionsFailed
    | EnvRejected(key: string)

  /** A warning the sandbox logs. */
  datatype Warning =
    | Override(key: string, fromFile: string, fromCli: string)
    | NoRuntimeFound
    | CleanupStopFailed(name: string)

  /** Everything the sandbox changes as it runs. */
  datatype World = World(
    trace: seq<Call>,
    files: map<Path, string>,
    environ: Settings,
    warnings: seq<Warning>)

  /** Running one command: it is appended to the trace, fails exactly when
      the outside world says so, and leaves behind the files it writes. */
  function Invoke(w: World, ext: Externals, command: Command, env: Option<Settings>): (r: (World, bool))
    ensures r.0.trace == w.trace + [Call(command, env, r.1)]
    ensures r.1 <==> |w.trace| !in ext.failing
    ensures r.0.environ == w.environ && r.0.warnings == w.warnings
    ensures |w.trace| !in ext.writes ==> r.0.files == w.files
    ensures |w.trace| in ext.writes ==> r.0.files == w.files + ext.writes[|w.trace|]
  {
    var n := |w.trace|;
    var ok := n !in ext.failing;
    var files := if n in ext.writes then w.files + ext.writes[n] else w.files;
    (w.(trace := w.trace + [Call(command, env, ok)], files := files), ok)
  }
}
