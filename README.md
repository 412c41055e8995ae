# Ansible sandbox, modelled in Dafny

`sandbox.py` is a command-line helper for developing Ansible playbooks
against a disposable target. `activate` writes a `.env` file with the Ansible
settings and container defaults. `run` resolves the container settings from
that file and the command line, checks that a port, a container engine
(podman or docker) and `ansible` are available, and then does the following:

- generates a fresh SSH key pair;
- makes sure a vault password file exists;
- builds and starts a target container, unless `--skip-container` is given;
- runs the sample playbook against the container;
- stops the container in a `finally` block.

This project models that core.

- The `.env` format (`EnvFile`), for both reading and writing. It uses
  Python's `str.strip`, `str.splitlines`, `sorted` and `int()`, which are
  modelled in `Text`.
- Interpreter selection (`Interpreter`) and the logging level (`LogLevels`).
- The activation settings (`Activation`).
- Container engine detection (`Runtime`).
- The provisioning steps (`Steps`) and the `run` workflow (`Workflow`).
- Each of these is a transition of a `World`. A `World` holds the commands
  handed to the subprocess runner, the files, the process environment and
  the warnings logged (`Effects`).
- Facts about whole runs (`RunFacts`).
- The same operations as methods of a `Host` class that updates those four
  fields in place (`Sandbox`). Each method is proved to do what its
  specification function says.

Everything outside the process is fixed in advance by an `Externals` value:

- which programs `shutil.which` finds;
- which commands exit non-zero, by their position in the command trace;
- which files each command writes;
- whether the role and collection steps succeed.

The image is modelled as written. `setup_container` builds it with
`--tag <container name>` but starts the container from `ansible_target:latest`.
With a container name other than the default, the model therefore starts an
image that the build did not tag.

## Model

| member | source | states |
|---|---|---|
| LogLevels.LevelIndex | sandbox.py:87 | The level index is below the number of levels and at most the verbosity. It equals the verbosity or is capped at the last level. |
| LogLevels.Level | sandbox.py:87-88 | The selected level is one of `LOG_LEVELS`. |
| LogLevels.MoreVerboseLogsMore | sandbox.py:87-88 | More `-v` flags never raise the threshold. |
| LogLevels.VerbosityCapped | sandbox.py:87-88 | Four or more flags select DEBUG. |
| Interpreter.SelectPython | sandbox.py:260-295 | Returns `None` exactly when no candidate lies in [3.10.0, 3.15.0). Otherwise returns the path of the kept candidate: it is in range, no in-range candidate is newer, and it is strictly newer than every in-range candidate before it, so the first seen wins ties. |
| Interpreter.KeptUnique | sandbox.py:287-289 | At most one candidate is kept, so the selection is determined. |
| Interpreter.ExampleNewestBelowCeiling | tests/test_sandbox.py:12-20 | From 3.11.5, 3.14.2, 3.15.0 and 3.12.0, the 3.14 interpreter is picked. |
| Paths.PathJoin | sandbox.py:580-587 | `dir / name` ends with `name`. |
| Text.Strip | sandbox.py:127 | The stripped line has no leading or trailing whitespace. |
| Text.StripRemovesOnlySpace | sandbox.py:127 | The line is the stripped line with only whitespace before and after it. |
| Text.StripFixesTrimmed | sandbox.py:127 | `strip()` leaves a string unchanged exactly when neither end is whitespace, so stripping twice changes nothing. |
| Text.BelowIsStrictOrder | sandbox.py:149 | The order `sorted` uses on keys is asymmetric. |
| Text.SplitLines | sandbox.py:126 | No line contains a line boundary, and an empty text has no lines. |
| Text.SplitJoinedLines | sandbox.py:150 | Splitting lines joined by newlines (with a trailing newline) gives back the lines. |
| Text.SortedKeys | sandbox.py:149 | Lists every key exactly once, in ascending order. |
| Text.ParseIntOfIntToString | sandbox.py:877-882 | `int(str(n))` is `n` for every `n` of at most 4300 digits, for which `str` does not raise. So the default port text parses back. |
| Text.ParseIntSurroundings | sandbox.py:881-882 | When `int()` accepts the port text, what it skips around the number is whitespace other than U+001C to U+001F. |
| Text.SeparatorRejected | sandbox.py:881-886 | A port text of U+001F followed by `2222` is rejected, although `strip()` would reduce it to `2222`. |
| Text.TooManyDigits | sandbox.py:881-886 | A string of more than 4300 digits does not parse, as Python's default `int_max_str_digits` limit makes `int()` raise. |
| EnvFile.LineEntry | sandbox.py:126-133 | A line yields no entry exactly when, once stripped, it is blank, starts with `#` or has no `=`. An entry's key contains no `=`, and key and value have no surrounding whitespace. |
| EnvFile.LineEntrySplit | sandbox.py:126-133 | An entry is the stripped text before the first `=` of the stripped line and the stripped text after it. |
| EnvFile.LoadEnv | sandbox.py:121-123 | A missing file loads as the empty dictionary. |
| EnvFile.LoadEnvFile | sandbox.py:105-135 | The loop over the lines computes `LoadEnv`. |
| EnvFile.ParsedKeys | sandbox.py:126-133 | A key is loaded exactly when some line sets it. |
| EnvFile.LastLineWins | sandbox.py:133 | When several lines set a key, the last of them gives its value. |
| EnvFile.EntryLines | sandbox.py:149 | One `key=value` line per entry, keys in ascending order. |
| EnvFile.Serialize | sandbox.py:150 | The written text ends with a newline. |
| EnvFile.RoundTrip | sandbox.py:126-150 | Loading what `write_env_file` wrote gives back the settings, for every key without `=` that does not start with `#`, and every key and value that are stripped and contain no line boundary. |
| EnvFile.EmptyRoundTrip | sandbox.py:149-150 | Writing no settings and loading them back gives nothing. |
| EnvFile.ParsedWritable | sandbox.py:126-133 | Every loaded dictionary meets the round-trip condition. |
| EnvFile.LoadWriteLoad | sandbox.py:126-150 | Loading, writing and loading again gives the first result, for any file text. |
| Activation.ActivationEnvKeys | sandbox.py:316-323 | The activation settings hold exactly the Ansible defaults and the five activation keys. |
| Activation.ActivationEnvKeepsAnsibleDefaults | sandbox.py:316-323 | No activation key overrides an Ansible default. |
| Activation.ActivationEnvValues | sandbox.py:316-323 | The settings hold the playbook root, its `vault-pw.txt`, `podman`, `2222` and `ansible_target`. |
| Activation.ActivationSettingsByKey | sandbox.py:453-458 | Key by key: `VENV_PYTHON` comes from the virtual environment, then the activation settings apply, then what the file held. |
| Activation.ActivationReloads | sandbox.py:453-460 | The `.env` file `activate` writes loads back as exactly the merged settings. |
| Activation.FreshActivationReloads | sandbox.py:453-460 | With no file and no virtual environment, it loads back as the activation settings. |
| Activation.ActivationFromScratch | tests/test_sandbox.py:24-46 | A fresh activation's file holds the defaults the test checks. |
| Runtime.SearchOrder | sandbox.py:507-510 | The preferred engine comes first. The order holds exactly the preferred engine, podman and docker, without duplicates. Without a preference it is podman, docker; podman precedes docker unless docker is preferred. |
| Runtime.FirstAvailable | sandbox.py:514-521 | `None` when no engine is installed. Otherwise the first installed engine in the order. |
| Runtime.VolumeOption | sandbox.py:526 | `:ro,z` exactly for podman, `:ro` for every other engine. |
| Runtime.DetectContainerRuntime | sandbox.py:486-528 | The loop returns the first installed engine of the search order and its volume option, or `(None, None)`. |
| Runtime.ExamplePrefersPodman | tests/test_sandbox.py:51-55 | With both engines installed, podman with `:ro,z`. |
| Runtime.DockerOnlyWithoutPodman | sandbox.py:507-521 | Without a preference, docker is chosen only when podman is missing. |
| Effects.ArgvShapes | sandbox.py:766-826 | Only a stop is `<engine> container stop <name>`. The playbook command is `ansible-playbook --inventory <inventory> <playbook>`, followed by `-l <limit>` exactly when the limit is non-empty. |
| Effects.Invoke | sandbox.py:531-555 | A command is appended to the trace. It succeeds exactly when the outside world says so and leaves its files behind. The environment and the warnings do not change. |
| Steps.KeyFilesDistinct | sandbox.py:585-587 | The public key differs from the private key and from `authorized_keys`. The private key and `authorized_keys` are the same file exactly when the key basename is `authorized_keys`. |
| Steps.SshKeysOutcome | sandbox.py:558-613 | Old key files are removed, then exactly one `ssh-keygen` call is made. Afterwards a key file exists exactly when that call wrote it. The step succeeds exactly when the call succeeds and writes the public key. On success `authorized_keys` holds what that very call wrote, never a stale key. No other file changes except those the call writes. |
| Steps.VaultOutcome | sandbox.py:616-635 | An existing password file leaves the world unchanged. A missing one is created with `password\n` and nothing else changes. No command is run. |
| Steps.ContainerOutcome | sandbox.py:731-794 | A failed build stops the step. Otherwise build, stop and start are issued, in that order. The step completes exactly when build and start succeed, whatever becomes of the stop. |
| Steps.PlaybookCommand | sandbox.py:797-826 | One playbook call with the process environment, `extra` taking precedence, and the argv above. |
| Workflow.CopyEntriesValues | sandbox.py:166-167 | After copying a prefix of the keys, those keys hold the file's values and every other variable keeps its old value. |
| Workflow.SetEnvOutcome | sandbox.py:154-169 | No setting is rejected exactly when `os.environ` accepts them all, and then the environment is the old one updated with the settings. A rejected key is one of the settings that `os.environ` refuses. Variables outside the file keep their values. |
| Workflow.Resolve | sandbox.py:869-879 | The CLI value wins, then the `.env` value, then the default. An override warning naming both values is logged exactly when both are non-empty and differ. |
| Workflow.ResolvedNotEmpty | sandbox.py:869-877 | A resolved setting is never empty. |
| Workflow.PlaybookLimit | sandbox.py:918-923 | Without a container and without a limit, the run is confined to `localhost`. Otherwise the given limit is used. A `-l` follows exactly when skipping or when a limit is given. |
| RunFacts.ContainerCalls | sandbox.py:766-790 | The container step keeps the earlier trace and succeeds exactly when its non-stop calls do. It adds one stop call when the build succeeds, and its last call is not a stop. |
| RunFacts.MaybeContainerCalls | sandbox.py:902-906 | Skipping the container leaves the world unchanged and reports no error. Otherwise the container step's facts hold: success exactly when build and start succeed, one added stop once built, no final stop. |
| RunFacts.AnsibleStepsOutcome | sandbox.py:909-925 | Roles, then collections, then exactly one playbook call with the key, vault and limit. |
| RunFacts.BodyFrame | sandbox.py:901-925 | The container counts as started exactly when it is not skipped and build and start succeed. |
| RunFacts.BodySucceeds | sandbox.py:901-925 | The `try` body completes exactly when every non-stop call succeeds and roles and collections are in place. |
| RunFacts.BodyStops | sandbox.py:901-925 | The body issues the pre-start stop once the image is built and no other stop, and never ends on a stop. |
| RunFacts.CleanupKeepsSuccess | sandbox.py:927-934 | The `finally` changes no earlier call and does not affect whether the run counts as successful. |
| RunFacts.CleanupStops | sandbox.py:927-934 | A started container gets exactly one more stop call as the last command, with a warning if it fails. A container that was not started gets none. |
| RunFacts.AfterKeysSucceeds | sandbox.py:898-937 | After the keys, `run` returns 0 exactly when roles and collections are in place and every non-stop call succeeds. |
| RunFacts.AfterKeysStopsStarted | sandbox.py:898-934 | A started container ends the trace with a stop, two stops are added in all, and a failed final stop adds exactly one warning. |
| RunFacts.AfterKeysStopsNotStarted | sandbox.py:898-934 | Without a started container, the trace does not end on a stop and no warning is added. |
| RunFacts.ProvisionFrame | sandbox.py:897-898 | Key generation comes first. If it fails, `run` raises after that one call. |
| RunFacts.ProvisionSucceeds | sandbox.py:897-937 | Provisioning returns 0 exactly when keys, roles and collections are made and every non-stop call succeeds. Otherwise it raises. |
| RunFacts.ProvisionEndsWithStop | sandbox.py:927-934 | A started container is stopped by the last command. |
| RunFacts.ProvisionStopCountStarted | sandbox.py:900-934 | A started container is stopped twice: once before it starts and once in the `finally`. |
| RunFacts.ProvisionWarnsStarted | sandbox.py:927-934 | A failed cleanup stop only adds a warning. |
| RunFacts.ProvisionStopsNotStarted | sandbox.py:900-934 | Without a started container there is no final stop and no new warning. |
| RunFacts.ProvisionSkip | sandbox.py:900-925 | When skipping, the trace is `ssh-keygen` plus at most one playbook call with the `localhost` default limit and the extra environment. No container command is issued. |
| RunFacts.SkipWithoutLimitIsLocal | sandbox.py:918-923 | When skipping without a limit, the playbook argv ends in `-l localhost`. |
| RunFacts.EarlyExits | sandbox.py:866-895 | A setting `os.environ` rejects raises, naming that setting, before any warning. A bad port gives 4. No engine gives 4 and a warning. No `ansible` gives 2. Each of these runs no command. |
| RunFacts.RunProvisions | sandbox.py:881-898 | Once the checks pass, `run` provisions with the resolved engine, name and port. |
| RunFacts.RunSucceeds | sandbox.py:829-937 | Exit codes are 0, 2 or 4 unless `run` raises. It returns 0 exactly when the checks pass, the keys are made, roles and collections are in place and every non-stop call succeeds. |
| RunFacts.RunEndsWithStop | sandbox.py:900-934 | A started container is stopped by the last command `run` issues. |
| RunFacts.RunStopCountStarted | sandbox.py:900-934 | A started container gets exactly two stop calls, the pre-start stop and the cleanup. |
| RunFacts.RunWarnsStarted | sandbox.py:927-934 | A stop failure during cleanup is a warning, not an error. |
| RunFacts.RunLeavesNoContainer | sandbox.py:866-934 | Without a started container, the run does not end on a stop. The only warnings are the overrides and, when no engine is installed, the missing-engine warning; there are none when a setting is rejected. |
| RunFacts.RunSkipContainer | sandbox.py:900-925 | With `--skip-container`: `ssh-keygen`, then the playbook limited to the given limit or else `localhost`, and no container command. |
| RunFacts.RunLoadsSettings | sandbox.py:866-879 | When every setting is accepted, the `.env` settings reach the process environment and the override warnings come first: runtime, then name, then port. Variables the file does not set keep their values in every case. |
| RunFacts.DefaultPortUsed | sandbox.py:877-882 | With no port given anywhere, `run` uses port 2222. |
| Sandbox.Host.constructor | sandbox.py:829-866 | A fresh host has an empty trace and no warnings. |
| Sandbox.Host.RunSubprocess | sandbox.py:531-555 | Updates the host as `Invoke` says. |
| Sandbox.Host.LoadEnvFile | sandbox.py:105-135 | Returns the settings `LoadEnv` gives. |
| Sandbox.Host.WriteEnvFile | sandbox.py:138-151 | The file holds exactly the serialised settings, and nothing else changes. |
| Sandbox.Host.SetEnvVars | sandbox.py:154-169 | Loads the file and copies it into the environment as `SetEnv` says, returning the first rejected key if any. Nothing else changes. |
| Sandbox.Host.CopyIntoEnviron | sandbox.py:166-168 | The loop copies entries until `os.environ` rejects one, as `CopyUntilRejected` says. Nothing else changes. |
| Sandbox.Host.Activate | sandbox.py:453-462 | Returns 0, and the `.env` file holds the merged activation settings. |
| Sandbox.Host.DetectContainerRuntime | sandbox.py:486-528 | Returns the specified engine and option, with a warning when none is found. |
| Sandbox.Host.SetupSshKeys | sandbox.py:558-613 | Updates the host as `SshKeys` says. |
| Sandbox.Host.SetupVault | sandbox.py:616-635 | Updates the host as `Vault` says. |
| Sandbox.Host.SetupContainer | sandbox.py:731-794 | Updates the host as `Container` says. |
| Sandbox.Host.RunPlaybook | sandbox.py:797-826 | Updates the host as `Playbook` says. |
| Sandbox.Host.ResolveSettings | sandbox.py:869-879 | Returns the configuration resolved from the loaded settings and the command line, and logs the override warnings. Nothing else changes. |
| Sandbox.Host.Run | sandbox.py:829-937 | Updates the host as `RunSpec` says, together with the outcome. |
| Sandbox.Host.Provision | sandbox.py:897-937 | Keys, vault, then the `try` body and its `finally`, as `Workflow.Provision` says. |

## Left out

- Probing interpreters (`find_python_candidates`, `_python_version`): `SelectPython` receives the probed paths and version triples.
- Virtual environments (`ensure_venv`, `_venv_python`, `install_requirements`): `Activate` receives the venv interpreter as a parameter and writes the `.env` file only.
- `setup_roles` and `setup_collections` are two success flags in `Externals`. Their `ansible-galaxy` commands, symlinks and files are not recorded.
- `detect_ansible` is modelled as `ansible` being among the installed programs.
- Resolving the playbook root (`Path.resolve`, `__file__`) is left out: `root` is a parameter.
- `ssh_keys/` directory creation and its `chmod 0700` are left out: the model has files but no directories or permissions.
- Reading and writing files as bytes and text decoding are left out: file contents are strings.
- Errors raised by the file system are left out. The only file-related failure modelled is a missing public key. The other failures modelled are a command that exits non-zero, a setting `os.environ` rejects, and failed role or collection setup.
- Only the warnings of `run` are recorded: overrides, no engine found and a failed cleanup stop. `select_python`'s warning that no suitable Python was found is not recorded, because `SelectPython` is a pure function with no log. The debug, info and error lines are not recorded.
- `configure_logging` handlers, `parse_args` and `main` are left out. `run` returns `Raised(error)` where `main` would log it and exit with 1.
- Text.ParseInt accepts ASCII digits, an optional sign, surrounding whitespace other than U+001C to U+001F (which make it fail, as in Python), and underscores between digits, up to 4300 digits. It rejects the non-ASCII decimal digits that Python's `int()` also accepts. The 4300-digit limit is the default; a limit changed through `PYTHONINTMAXSTRDIGITS` or `sys.set_int_max_str_digits` is not modelled.
- Host.SetEnvVars: copies the settings into the environment in ascending key order, whereas Python follows the order in which keys first appear in the file. When `os.environ` rejects an entry, the set of entries already copied can therefore differ. So can the key `EnvRejected` names: the model names the first unsettable key in ascending order, Python the first in file order. Which entries `os.environ` accepts (a non-empty key without `=` or NUL, a value without NUL) and that `run` raises before any warning or command agree with Python.
- Text.Strip and Text.SplitLines use Python's whitespace and line-boundary characters, taken as a fixed set.
- The content `ssh-keygen` writes is taken from `Externals`: the model does not capture that the key is freshly random.
