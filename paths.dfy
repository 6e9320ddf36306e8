/**
 * Relative file-system paths as their list of components (`pathlib`'s
 * `parts`); the empty list stands for the current directory `.`.
 */
module Paths {
  import opened Text

  type Path = seq<string>

  /** `Path.name`: the last component, or "" for `.`. */
  function Name(p: Path): string {
    if p == [] then "" else p[|p| - 1]
  }

  /** `Path.parent` (the parent of `.` is `.`). */
  function Parent(p: Path): Path {
    if p == [] then [] else p[..|p| - 1]
  }

  /** `str(path)` / `path.as_posix()`. */
  function Display(p: Path): string {
    if p == [] then "." else Join(p, "/")
  }
}
