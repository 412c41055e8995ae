/**
 * The provisioning steps of a playbook run, as transitions of the world:
 * `setup_ssh_keys`, `setup_vault`, `setup_container` and `run_playbook`.
 */
module Steps {
  import opened Wrappers
  import opened Text
  import opened Paths
  import opened EnvFile
  import opened Effects

  const KeyBasename := "ansible_target"
  const VaultFileName := "vault-pw.txt"
  const InventoryFile := "inventory/main.yml"
  const PlaybookFile := "playbooks/sample_playbook.yml"

  // ---------------------------------------------------------------------------
  // setup_ssh_keys
  // ---------------------------------------------------------------------------

  /** The files of the key pair under `base`. */
  datatype KeyFiles = KeyFiles(privateKey: Path, publicKey: Path, authorizedKeys: Path)

  function KeyFilesUnder(base: Path, basename: string): KeyFiles {
    var dir := PathJoin(base, SshDirName);
    KeyFiles(PathJoin(dir, basename), PathJoin(dir, basename + ".pub"), PathJoin(dir, "authorized_keys"))
  }

  /** `setup_ssh_keys(base, basename)`: the old pair is removed, `ssh-keygen`
      makes a new one and its public half becomes `authorized_keys`; the
      private key and `authorized_keys` are returned. */
  function SshKeys(w: World, ext: Externals, base: Path, basename: string): (World, Result<(Path, Path), Error>) {
    var kf := KeyFilesUnder(base, basename);
    var cleared := w.(files := w.files - {kf.privateKey, kf.publicKey});
    var (w1, ok) := Invoke(cleared, ext, Keygen(kf.privateKey), None);
    if !ok then (w1, Failure(CommandFailed(Keygen(kf.privateKey))))
    else if kf.publicKey !in w1.files then (w1, Failure(FileMissing(kf.publicKey)))
    else (w1.(files := w1.files[kf.authorizedKeys := w1.files[kf.publicKey]]), Success((kf.privateKey, kf.authorizedKeys)))
  }

  /** The key files are distinct whatever the base and the basename. */
  lemma KeyFilesDistinct(base: Path, basename: string)
    ensures var kf := KeyFilesUnder(base, basename);
            && kf.publicKey != kf.privateKey && kf.authorizedKeys != kf.publicKey
            && (kf.privateKey != kf.authorizedKeys <==> basename != "authorized_keys")
  {
    var kf := KeyFilesUnder(base, basename);
    var dir := PathJoin(base, SshDirName);
    var sep := if dir != [] && dir[|dir| - 1] == '/' then dir else dir + "/";
    assert kf.privateKey == sep + basename && kf.authorizedKeys == sep + "authorized_keys";
    assert kf.privateKey[|sep|..] == basename && kf.authorizedKeys[|sep|..] == "authorized_keys";
    assert |kf.publicKey| == |kf.privateKey| + 4;
    var pub, auth := basename + ".pub", "authorized_keys";
    var p, a := kf.publicKey, kf.authorizedKeys;
    assert p[|p| - 1] == p[|p| - |pub|..][|pub| - 1] == 'b';
    assert a[|a| - 1] == a[|a| - |auth|..][|auth| - 1] == 's';
  }

  /** What `setup_ssh_keys` does to the outside world: the old key pair is
      removed, one `ssh-keygen` call is made and nothing else; on success
      `authorized_keys` holds exactly what that very call wrote as the
      public key, never a stale one from an earlier run; otherwise it
      raises. Every other file is as the call left it. */
  lemma SshKeysOutcome(w: World, ext: Externals, base: Path, basename: string)
    ensures var (w1, r) := SshKeys(w, ext, base, basename);
            var kf := KeyFilesUnder(base, basename);
            var n := |w.trace|;
            && w1.trace == w.trace + [Call(Keygen(kf.privateKey), None, n !in ext.failing)]
            && w1.environ == w.environ && w1.warnings == w.warnings
            && (r.Success? <==> n !in ext.failing && n in ext.writes && kf.publicKey in ext.writes[n])
            && (r.Success? ==>
                  && r.value == (kf.privateKey, kf.authorizedKeys)
                  && kf.authorizedKeys in w1.files
                  && w1.files[kf.authorizedKeys] == ext.writes[n][kf.publicKey])
            && (n in ext.failing ==> r == Failure(CommandFailed(Keygen(kf.privateKey))))
            && (kf.publicKey in w1.files <==> n in ext.writes && kf.publicKey in ext.writes[n])
            && (kf.privateKey != kf.authorizedKeys ==>
                  (kf.privateKey in w1.files <==> n in ext.writes && kf.privateKey in ext.writes[n]))
            && var made := (w.files - {kf.privateKey, kf.publicKey}) + (if n in ext.writes then ext.writes[n] else map[]);
               && (r.Failure? ==> w1.files == made)
               && (r.Success? ==> w1.files == made[kf.authorizedKeys := made[kf.publicKey]])
  {
    KeyFilesDistinct(base, basename);
  }

  /** The part of `SshKeysOutcome` a run needs: the one `ssh-keygen` call
      and when the step succeeds. */
  lemma SshKeysTrace(w: World, ext: Externals, base: Path, basename: string)
    ensures var (w1, r) := SshKeys(w, ext, base, basename);
            var kf := KeyFilesUnder(base, basename);
            var n := |w.trace|;
            && w1.trace == w.trace + [Call(Keygen(kf.privateKey), None, n !in ext.failing)]
            && w1.environ == w.environ && w1.warnings == w.warnings
            && (r.Success? <==> n !in ext.failing && n in ext.writes && kf.publicKey in ext.writes[n])
            && (r.Success? ==> r.value.0 == kf.privateKey)
  {
  }

  // ---------------------------------------------------------------------------
  // setup_vault
  // ---------------------------------------------------------------------------

  /** `setup_vault(root)`: the demo password file is created when missing. */
  function Vault(w: World, root: Path): (World, Path) {
    var target := PathJoin(root, VaultFileName);
    if target in w.files then (w, target) else (w.(files := w.files[target := "password\n"]), target)
  }

  /** An existing password file is kept as it is; a missing one gets the
      demo password; nothing else changes. */
  lemma VaultOutcome(w: World, root: Path)
    ensures var (w1, target) := Vault(w, root);
            && target == PathJoin(root, VaultFileName)
            && target in w1.files
            && (target in w.files ==> w1 == w)
            && (target !in w.files ==> w1 == w.(files := w.files[target := "password\n"]))
  {
  }

  /** The vault step runs no command and logs nothing. */
  lemma VaultTrace(w: World, root: Path)
    ensures var (w1, target) := Vault(w, root);
            && target == PathJoin(root, VaultFileName)
            && w1.trace == w.trace && w1.environ == w.environ && w1.warnings == w.warnings
  {
  }

  // ---------------------------------------------------------------------------
  // setup_container
  // ---------------------------------------------------------------------------

  /** `setup_container(...)`: build the image, stop a container left over
      under the same name (a failure there is ignored), start the new one.
      `None` when it completes, the error it raises otherwise. */
  function Container(w: World, ext: Externals, runtime: string, volumeOpt: string, root: Path, name: string, hostPort: int)
    : (World, Option<Error>)
  {
    var (w1, built) := Invoke(w, ext, Build(runtime, root, name), None);
    if !built then (w1, Some(CommandFailed(Build(runtime, root, name))))
    else
      var (w2, _) := Invoke(w1, ext, Stop(runtime, name), None);
      var start := Start(runtime, volumeOpt, root, name, hostPort);
      var (w3, started) := Invoke(w2, ext, start, None);
      if !started then (w3, Some(CommandFailed(start))) else (w3, None)
  }

  /** The container step issues build, then stop and start when the build
      succeeds; it completes exactly when build and start succeed, whatever
      becomes of the stop in between. */
  lemma ContainerOutcome(w: World, ext: Externals, runtime: string, volumeOpt: string, root: Path, name: string, hostPort: int)
    ensures var (w1, err) := Container(w, ext, runtime, volumeOpt, root, name, hostPort);
            var n := |w.trace|;
            && w1.environ == w.environ && w1.warnings == w.warnings
            && (n in ext.failing ==>
                  w1.trace == w.trace + [Call(Build(runtime, root, name), None, false)])
            && (n !in ext.failing ==>
                  w1.trace == w.trace + [Call(Build(runtime, root, name), None, true)]
                                      + [Call(Stop(runtime, name), None, n + 1 !in ext.failing)]
                                      + [Call(Start(runtime, volumeOpt, root, name, hostPort), None, n + 2 !in ext.failing)])
            && (err.None? <==> n !in ext.failing && n + 2 !in ext.failing)
  {
  }

  // ---------------------------------------------------------------------------
  // run_playbook
  // ---------------------------------------------------------------------------

  /** `run_playbook(...)`: one `ansible-playbook` call in the process
      environment updated with `extra`. */
  function Playbook(w: World, ext: Externals, inventory: Path, playbook: Path, extra: Settings, limit: Option<string>)
    : (World, bool)
  {
    Invoke(w, ext, RunPlaybook(inventory, playbook, limit), Some(w.environ + extra))
  }

  /** The playbook runs with the process environment, `extra` taking
      precedence, and its command line is `ansible-playbook --inventory
      <inventory> <playbook>`, followed by `-l <limit>` exactly when a
      non-empty limit is given. */
  lemma PlaybookCommand(w: World, ext: Externals, inventory: Path, playbook: Path, extra: Settings, limit: Option<string>)
    ensures var (w1, ok) := Playbook(w, ext, inventory, playbook, extra, limit);
            var argv := Argv(RunPlaybook(inventory, playbook, limit));
            && w1.trace == w.trace + [Call(RunPlaybook(inventory, playbook, limit), Some(w.environ + extra), ok)]
            && |argv| >= 4
            && argv[..4] == ["ansible-playbook", "--inventory", inventory, playbook]
            && (Given(limit) ==> argv[4..] == ["-l", limit.value])
            && (!Given(limit) ==> argv[4..] == [])
            && (forall k :: k in extra ==> w1.trace[|w.trace|].env.value[k] == extra[k])
            && (forall k :: k in w.environ && k !in extra ==> w1.trace[|w.trace|].env.value[k] == w.environ[k])
  {
    ArgvShapes(RunPlaybook(inventory, playbook, limit));
  }
}
