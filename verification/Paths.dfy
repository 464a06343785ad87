/** Paths as sequences of parts, resolved without looking at the disk. */
module Paths {
  type Comp = string

  /** A file name as its parts between slashes; a path is one resolved from the root. */
  type Name = seq<Comp>
  type Path = seq<Comp>

  /** Resolving drops empty and `.` parts and lets `..` go up. */
  function Resolved(base: Path, name: Name): Path
    decreases |name|
  {
    if name == [] then base
    else if name[0] == "" || name[0] == "." then Resolved(base, name[1..])
    else if name[0] == ".." then Resolved(if base == [] then [] else base[..|base| - 1], name[1..])
    else Resolved(base + [name[0]], name[1..])
  }

  /** A name starting with a slash ignores the workspace. */
  function Under(ws: Path, name: Name): Path {
    if |name| >= 2 && name[0] == "" then Resolved([], name) else Resolved(ws, name)
  }

  /** A directory stands where the file should go, or a file where its directory should. */
  predicate Blocked(files: map<Path, string>, root: Path, p: Path) {
    p == root || exists q :: q in files && (q < p || p < q)
  }

  predicate Normal(name: Name) {
    forall i :: 0 <= i < |name| ==> name[i] != "" && name[i] != "." && name[i] != ".."
  }

  lemma {:induction false} NormalResolves(base: Path, name: Name)
    requires Normal(name)
    ensures Resolved(base, name) == base + name
    decreases |name|
  {
    if name != [] {
      NormalResolves(base + [name[0]], name[1..]);
      assert base + [name[0]] + name[1..] == base + name;
    }
  }
}
