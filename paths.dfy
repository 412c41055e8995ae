/** File-system paths as the sandbox builds them with pathlib's `/`. */
module Paths {

  /** A path, as the string `str(path)` gives. */
  type Path = string

  /** `dir / name` for a relative `name`: one separator between the parts. */
  function PathJoin(dir: Path, name: string): (p: Path)
    ensures |name| <= |p| && p[|p| - |name|..] == name
  {
    if dir != [] && dir[|dir| - 1] == '/' then dir + name else dir + "/" + name
  }
}
