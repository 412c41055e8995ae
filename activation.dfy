/**
 * `build_activation_env` and the settings `activate` writes to the `.env`
 * file: what the file held, overwritten by the activation defaults, plus
 * `VENV_PYTHON` when a virtual environment exists.
 */
module Activation {
  import opened Wrappers
  import opened Text
  import opened Paths
  import opened EnvFile

  /** `ANSIBLE_ENV_DEFAULTS`: Ansible configured by environment, without an `ansible.cfg`. */
  const AnsibleDefaults: Settings := map[
    "ANSIBLE_DISPLAY_ARGS_TO_STDOUT" := "false",
    "ANSIBLE_CALLBACKS_ENABLED" := "profile_tasks",
    "ANSIBLE_LOAD_CALLBACK_PLUGINS" := "true",
    "ANSIBLE_LOG_PATH" := "ansible.log",
    "ANSIBLE_ROLES_PATH" := "roles",
    "ANSIBLE_FILTER_PLUGINS" := "plugins",
    "ANSIBLE_LIBRARY" := "library",
    "ANSIBLE_CALLBACK_RESULT_FORMAT" := "yaml"
  ]

  const VaultPasswordFile := "vault-pw.txt"
  const DefaultRuntime := "podman"
  const DefaultHostPort := 2222
  const DefaultContainerName := "ansible_target"

  /** The keys `build_activation_env` sets besides the Ansible defaults. */
  const ActivationKeys: set<string> :=
    {"PLAYBOOK_PATH", "ANSIBLE_VAULT_PASSWORD_FILE", "CONTAINER_RUNTIME", "CONTAINER_HOST_PORT", "CONTAINER_NAME"}

  /** `build_activation_env(root)`. */
  function BuildActivationEnv(root: Path): Settings {
    (map["PLAYBOOK_PATH" := root] + AnsibleDefaults)[
      "ANSIBLE_VAULT_PASSWORD_FILE" := PathJoin(root, VaultPasswordFile)][
      "CONTAINER_RUNTIME" := DefaultRuntime][
      "CONTAINER_HOST_PORT" := IntToString(DefaultHostPort)][
      "CONTAINER_NAME" := DefaultContainerName]
  }

  /** The activation settings hold the Ansible defaults and the five
      activation keys, and nothing else. */
  lemma ActivationEnvKeys(root: Path)
    ensures forall k :: k in BuildActivationEnv(root) <==> k in AnsibleDefaults || k in ActivationKeys
  {
  }

  /** None of the activation keys overrides an Ansible default. */
  lemma ActivationEnvKeepsAnsibleDefaults(root: Path)
    ensures forall k :: k in AnsibleDefaults ==> k in BuildActivationEnv(root) && BuildActivationEnv(root)[k] == AnsibleDefaults[k]
  {
  }

  /** The playbook root, its vault password file, `podman`, port `2222` and
      container `ansible_target`. */
  lemma ActivationEnvValues(root: Path)
    ensures var env := BuildActivationEnv(root);
            && env["PLAYBOOK_PATH"] == root
            && env["ANSIBLE_VAULT_PASSWORD_FILE"] == PathJoin(root, VaultPasswordFile)
            && env["CONTAINER_RUNTIME"] == "podman"
            && env["CONTAINER_HOST_PORT"] == "2222"
            && env["CONTAINER_NAME"] == "ansible_target"
  {
    HostPortText();
  }

  /** The dictionary `activate` writes, from what the `.env` file held and
      the virtual environment's interpreter, if there is one. */
  function ActivationSettings(existing: Settings, root: Path, venvPython: Option<Path>): Settings {
    var merged := existing + BuildActivationEnv(root);
    if venvPython.Some? then merged["VENV_PYTHON" := venvPython.value] else merged
  }

  /** Key by key: `VENV_PYTHON` from the virtual environment when there is
      one, then the activation defaults, then whatever the file held. */
  lemma ActivationSettingsByKey(existing: Settings, root: Path, venvPython: Option<Path>, k: string)
    ensures var s := ActivationSettings(existing, root, venvPython);
            var defaults := BuildActivationEnv(root);
            && (k in s <==> k in existing || k in defaults || (k == "VENV_PYTHON" && venvPython.Some?))
            && (k == "VENV_PYTHON" && venvPython.Some? ==> s[k] == venvPython.value)
            && (k != "VENV_PYTHON" && k in defaults ==> s[k] == defaults[k])
            && (k !in defaults && k in existing && (k != "VENV_PYTHON" || venvPython.None?) ==> s[k] == existing[k])
  {
    assert "VENV_PYTHON" !in BuildActivationEnv(root);
  }

  lemma ConcatWritable(a: string, b: string)
    requires ValidValue(a) && ValidValue(b)
    ensures ValidValue(a + b)
  {
    var s := a + b;
    forall i | 0 <= i < |s| ensures !IsLineBreak(s[i]) {
      if i < |a| { assert s[i] == a[i]; } else { assert s[i] == b[i - |a|]; }
    }
    if a != [] { assert s[0] == a[0]; }
    if b != [] { assert s[|s| - 1] == b[|b| - 1]; }
  }

  /** The vault password file under a root that can be written can be written too. */
  lemma VaultPathWritable(root: Path)
    requires ValidValue(root)
    ensures ValidValue(PathJoin(root, VaultPasswordFile))
  {
    assert ValidValue(VaultPasswordFile);
    if root != [] && root[|root| - 1] == '/' {
      ConcatWritable(root, VaultPasswordFile);
    } else {
      assert ValidValue("/");
      ConcatWritable(root, "/");
      ConcatWritable(root + "/", VaultPasswordFile);
    }
  }

  // Every fixed entry of the activation settings can be written and read back.
  // One lemma per literal: each check unfolds the character predicates over a
  // whole string, and several of them in one proof exceed the solver's budget.
  lemma DisplayArgsWritable() ensures ValidKey("ANSIBLE_DISPLAY_ARGS_TO_STDOUT") && ValidValue("false") {}
  lemma CallbacksEnabledWritable() ensures ValidKey("ANSIBLE_CALLBACKS_ENABLED") && ValidValue("profile_tasks") {}
  lemma LoadCallbacksWritable() ensures ValidKey("ANSIBLE_LOAD_CALLBACK_PLUGINS") && ValidValue("true") {}
  lemma LogPathWritable() ensures ValidKey("ANSIBLE_LOG_PATH") && ValidValue("ansible.log") {}
  lemma RolesPathWritable() ensures ValidKey("ANSIBLE_ROLES_PATH") && ValidValue("roles") {}
  lemma FilterPluginsWritable() ensures ValidKey("ANSIBLE_FILTER_PLUGINS") && ValidValue("plugins") {}
  lemma LibraryWritable() ensures ValidKey("ANSIBLE_LIBRARY") && ValidValue("library") {}
  lemma ResultFormatWritable() ensures ValidKey("ANSIBLE_CALLBACK_RESULT_FORMAT") && ValidValue("yaml") {}
  lemma PlaybookPathKeyWritable() ensures ValidKey("PLAYBOOK_PATH") {}
  lemma VaultKeyWritable() ensures ValidKey("ANSIBLE_VAULT_PASSWORD_FILE") {}
  lemma RuntimeWritable() ensures ValidKey("CONTAINER_RUNTIME") && ValidValue("podman") {}
  lemma HostPortWritable() ensures ValidKey("CONTAINER_HOST_PORT") && ValidValue("2222") {}
  lemma NameWritable() ensures ValidKey("CONTAINER_NAME") && ValidValue("ansible_target") {}
  lemma VenvKeyWritable() ensures ValidKey("VENV_PYTHON") {}

  lemma HostPortText()
    ensures IntToString(DefaultHostPort) == "2222"
  {
  }

  lemma AnsibleDefaultsWritable()
    ensures Writable(AnsibleDefaults)
  {
    forall k | k in AnsibleDefaults ensures ValidKey(k) && ValidValue(AnsibleDefaults[k]) {
      if k == "ANSIBLE_DISPLAY_ARGS_TO_STDOUT" { DisplayArgsWritable(); }
      else if k == "ANSIBLE_CALLBACKS_ENABLED" { CallbacksEnabledWritable(); }
      else if k == "ANSIBLE_LOAD_CALLBACK_PLUGINS" { LoadCallbacksWritable(); }
      else if k == "ANSIBLE_LOG_PATH" { LogPathWritable(); }
      else if k == "ANSIBLE_ROLES_PATH" { RolesPathWritable(); }
      else if k == "ANSIBLE_FILTER_PLUGINS" { FilterPluginsWritable(); }
      else if k == "ANSIBLE_LIBRARY" { LibraryWritable(); }
      else { ResultFormatWritable(); }
    }
  }

  /** With a root that can be written, every activation default can be
      written and read back. */
  lemma ActivationEnvWritable(root: Path)
    requires ValidValue(root)
    ensures Writable(BuildActivationEnv(root))
  {
    var env := BuildActivationEnv(root);
    ActivationEnvKeys(root);
    ActivationEnvKeepsAnsibleDefaults(root);
    ActivationEnvValues(root);
    forall k | k in env ensures ValidKey(k) && ValidValue(env[k]) {
      if k in AnsibleDefaults { AnsibleDefaultsWritable(); }
      else if k == "PLAYBOOK_PATH" { PlaybookPathKeyWritable(); }
      else if k == "ANSIBLE_VAULT_PASSWORD_FILE" { VaultKeyWritable(); VaultPathWritable(root); }
      else if k == "CONTAINER_RUNTIME" { RuntimeWritable(); }
      else if k == "CONTAINER_HOST_PORT" { HostPortWritable(); }
      else { NameWritable(); }
    }
  }

  /** Reading back the `.env` file `activate` wrote gives exactly the
      settings it computed, whatever the file held before. */
  lemma ActivationReloads(text: string, root: Path, venvPython: Option<Path>)
    requires ValidValue(root)
    requires venvPython.Some? ==> ValidValue(venvPython.value)
    ensures var s := ActivationSettings(ParseEnv(text), root, venvPython);
            ParseEnv(Serialize(s)) == s
  {
    ParsedWritable(SplitLines(text));
    ActivationEnvWritable(root);
    VenvKeyWritable();
    RoundTrip(ActivationSettings(ParseEnv(text), root, venvPython));
  }

  lemma EmptyText()
    ensures ParseEnv("") == map[]
  {
    assert SplitLines("") == [];
  }

  lemma MergeIntoEmpty(m: Settings)
    ensures map[] + m == m
  {
  }

  lemma FreshActivationReloads(root: Path)
    requires ValidValue(root)
    ensures ParseEnv(Serialize(ActivationSettings(map[], root, None))) == BuildActivationEnv(root)
  {
    ActivationReloads("", root, None);
    EmptyText();
    MergeIntoEmpty(BuildActivationEnv(root));
  }

  /** Activation with no `.env` file and no virtual environment: the file
      written reads back with the playbook root, `podman`, `2222`,
      `ansible_target` and a vault password file ending in `vault-pw.txt`. */
  lemma ActivationFromScratch(root: Path)
    requires ValidValue(root)
    ensures var s := ParseEnv(Serialize(ActivationSettings(map[], root, None)));
            && "PLAYBOOK_PATH" in s && s["PLAYBOOK_PATH"] == root
            && "CONTAINER_RUNTIME" in s && s["CONTAINER_RUNTIME"] == "podman"
            && "CONTAINER_HOST_PORT" in s && s["CONTAINER_HOST_PORT"] == "2222"
            && "CONTAINER_NAME" in s && s["CONTAINER_NAME"] == "ansible_target"
            && "ANSIBLE_VAULT_PASSWORD_FILE" in s
            && var vault := s["ANSIBLE_VAULT_PASSWORD_FILE"];
               |VaultPasswordFile| <= |vault| && vault[|vault| - |VaultPasswordFile|..] == VaultPasswordFile
  {
    FreshActivationReloads(root);
    ActivationEnvKeys(root);
    ActivationEnvValues(root);
  }
}
