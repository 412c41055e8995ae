/**
 * `detect_container_runtime`: the container engine to use, tried in the
 * order preferred engine, `podman`, `docker`, and the mount option that
 * goes with it.
 */
module Runtime {
  import opened Wrappers
  import opened Text

  /** The engines tried, in order: the preferred one when given, then
      `podman` and `docker` unless already listed. */
  function SearchOrder(preferred: Option<string>): (order: seq<string>)
    ensures Given(preferred) ==> |order| > 0 && order[0] == preferred.value
    ensures forall r :: r in order <==> r == "podman" || r == "docker" || (Given(preferred) && r == preferred.value)
    ensures forall i, j :: 0 <= i < j < |order| ==> order[i] != order[j]
    ensures !Given(preferred) ==> order == ["podman", "docker"]
    ensures !(Given(preferred) && preferred.value == "docker") ==>
              forall i, j :: 0 <= i < |order| && 0 <= j < |order| && order[i] == "podman" && order[j] == "docker" ==> i < j
  {
    var first := if Given(preferred) then [preferred.value] else [];
    first + (if "podman" in first then [] else ["podman"]) + (if "docker" in first then [] else ["docker"])
  }

  /** The first engine of `order` that is on the `PATH`. */
  function FirstAvailable(order: seq<string>, available: set<string>): (r: Option<string>)
    ensures r.None? <==> forall i :: 0 <= i < |order| ==> order[i] !in available
    ensures r.Some? ==> exists i :: 0 <= i < |order| && order[i] == r.value && r.value in available
                                     && forall j :: 0 <= j < i ==> order[j] !in available
  {
    if order == [] then None
    else if order[0] in available then Some(order[0])
    else
      var r := FirstAvailable(order[1..], available);
      assert forall i :: 1 <= i < |order| ==> order[i] == order[1..][i - 1];
      r
  }

  /** The mount option for the `ssh_keys` volume: SELinux relabelling under podman. */
  function VolumeOption(runtime: string): (opt: string)
    ensures opt == ":ro,z" <==> runtime == "podman"
    ensures opt == ":ro" <==> runtime != "podman"
  {
    if runtime == "podman" then ":ro,z" else ":ro"
  }

  /** `detect_container_runtime(preferred)` where `available` is what
      `shutil.which` finds. */
  method DetectContainerRuntime(available: set<string>, preferred: Option<string>)
      returns (runtime: Option<string>, volumeOpt: Option<string>)
    ensures runtime == FirstAvailable(SearchOrder(preferred), available)
    ensures runtime.None? <==> volumeOpt.None?
    ensures runtime.Some? ==> volumeOpt == Some(VolumeOption(runtime.value))
  {
    var ordered: seq<string> := [];
    if Given(preferred) {
      ordered := ordered + [preferred.value];
    }
    if "podman" !in ordered {
      ordered := ordered + ["podman"];
    }
    if "docker" !in ordered {
      ordered := ordered + ["docker"];
    }
    assert ordered == SearchOrder(preferred);
    runtime := None;
    var n := 0;
    while n < |ordered|
      invariant n <= |ordered|
      invariant runtime.None?
      invariant FirstAvailable(ordered, available) == FirstAvailable(ordered[n..], available)
      decreases |ordered| - n
    {
      if ordered[n] in available {
        assert ordered[n..][0] == ordered[n];
        runtime := Some(ordered[n]);
        break;
      }
      assert ordered[n..][1..] == ordered[n + 1..];
      n := n + 1;
    }
    if runtime.None? {
      volumeOpt := None;
      return;
    }
    volumeOpt := Some(VolumeOption(runtime.value));
  }

  /** With no preference and both engines installed, podman is used with
      the relabelling mount option. */
  method ExamplePrefersPodman() returns (runtime: Option<string>, volumeOpt: Option<string>)
    ensures runtime == Some("podman") && volumeOpt == Some(":ro,z")
  {
    runtime, volumeOpt := DetectContainerRuntime({"podman", "docker"}, None);
    assert SearchOrder(None) == ["podman", "docker"];
  }

  /** Without a preference, docker is used only when podman is missing. */
  lemma DockerOnlyWithoutPodman(available: set<string>)
    requires FirstAvailable(SearchOrder(None), available) == Some("docker")
    ensures "podman" !in available && "docker" in available
  {
    assert SearchOrder(None) == ["podman", "docker"];
  }
}
