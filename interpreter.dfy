/**
 * `select_python`: among probed interpreters, the one with the highest
 * version triple inside the supported range [3.10.0, 3.15.0).
 */
module Interpreter {
  import opened Wrappers
  import opened Paths

  /** A `(major, minor, micro)` version triple. */
  datatype Version = Version(major: int, minor: int, micro: int)

  /** Python's `<` on version tuples: lexicographic, component by component. */
  predicate Less(a: Version, b: Version) {
    || a.major < b.major
    || (a.major == b.major && a.minor < b.minor)
    || (a.major == b.major && a.minor == b.minor && a.micro < b.micro)
  }

  /** The oldest supported version. */
  const Oldest := Version(3, 10, 0)

  /** The first version no longer supported. */
  const Ceiling := Version(3, 15, 0)

  /** Neither `version < (3, 10, 0)` nor `version >= (3, 15, 0)`. */
  predicate InRange(v: Version) {
    !Less(v, Oldest) && Less(v, Ceiling)
  }

  /** One probed interpreter: its path and the version it reported. */
  datatype Candidate = Candidate(path: Path, version: Version)

  lemma LessTotal(a: Version, b: Version)
    ensures a == b || Less(a, b) || Less(b, a)
  {
  }

  /** Among the first `n` candidates, `i` is the one kept: in range, with no
      in-range candidate newer, and strictly newer than every in-range
      candidate before it (the first of equal versions wins). */
  predicate KeptAmong(cs: seq<Candidate>, n: nat, i: int)
    requires n <= |cs|
  {
    && 0 <= i < n
    && InRange(cs[i].version)
    && (forall j :: 0 <= j < n && InRange(cs[j].version) ==> !Less(cs[i].version, cs[j].version))
    && (forall j :: 0 <= j < i && InRange(cs[j].version) ==> Less(cs[j].version, cs[i].version))
  }

  predicate Kept(cs: seq<Candidate>, i: int) {
    KeptAmong(cs, |cs|, i)
  }

  predicate NoneInRange(cs: seq<Candidate>) {
    forall j :: 0 <= j < |cs| ==> !InRange(cs[j].version)
  }

  /** `select_python(candidates)`: the path of the newest in-range candidate,
      the first one when several share that version, or `None`. */
  method SelectPython(cs: seq<Candidate>) returns (picked: Option<Path>)
    ensures picked.None? <==> NoneInRange(cs)
    ensures picked.Some? ==> exists i :: Kept(cs, i) && cs[i].path == picked.value
  {
    var best: Option<Version> := None;
    var bestPath: Option<Path> := None;
    ghost var kept: nat := 0;
    var n := 0;
    while n < |cs|
      invariant n <= |cs|
      invariant best.None? <==> forall j :: 0 <= j < n ==> !InRange(cs[j].version)
      invariant best.None? ==> bestPath.None?
      invariant best.Some? ==>
                  KeptAmong(cs, n, kept) && best == Some(cs[kept].version) && bestPath == Some(cs[kept].path)
    {
      var c := cs[n];
      if Less(c.version, Oldest) {
        // older than 3.10.0: skipped
      } else if !Less(c.version, Ceiling) {
        // 3.15.0 or newer: skipped
      } else if best.None? || Less(best.value, c.version) {
        if best.Some? {
          forall j | 0 <= j < n && InRange(cs[j].version) ensures Less(cs[j].version, c.version) {
            LessTotal(cs[j].version, cs[kept].version);
          }
        }
        best := Some(c.version);
        bestPath := Some(c.path);
        kept := n;
      } else {
        LessTotal(c.version, best.value);
      }
      n := n + 1;
    }
    picked := bestPath;
  }

  /** At most one candidate is the one kept. */
  lemma KeptUnique(cs: seq<Candidate>, i: int, k: int)
    requires Kept(cs, i) && Kept(cs, k)
    ensures i == k
  {
  }

  /** The interpreters 3.11.5, 3.14.2, 3.15.0 and 3.12.0, in that order:
      3.14.2 is picked. */
  method ExampleNewestBelowCeiling() returns (picked: Option<Path>)
    ensures picked == Some("/usr/bin/python3.14")
  {
    var cs := [
      Candidate("/usr/bin/python3.11", Version(3, 11, 5)),
      Candidate("/usr/bin/python3.14", Version(3, 14, 2)),
      Candidate("/usr/bin/python3.15", Version(3, 15, 0)),
      Candidate("/usr/bin/python3.12", Version(3, 12, 0))
    ];
    picked := SelectPython(cs);
    assert Kept(cs, 1);
    ghost var i :| Kept(cs, i) && cs[i].path == picked.value;
    KeptUnique(cs, i, 1);
  }
}
