/** POSIX paths as strings, and the filesystem as an abstract snapshot: the set of
    paths that exist and the canonicalisation `Path.resolve()` performs. */
module Paths {

  type Path = string

  /** `os.path.isabs` on POSIX. */
  predicate IsAbs(p: Path) {
    |p| > 0 && p[0] == '/'
  }

  /** `root / f` for a relative `f`: one separator between the two parts. An
      empty root stands for the current directory, so the name stays relative. */
  function Join(root: Path, f: Path): (r: Path)
    ensures root == "" ==> r == f
    ensures |root| <= |r| && r[..|root|] == root
    ensures |f| <= |r| && r[|r| - |f|..] == f
    ensures IsAbs(root) ==> IsAbs(r)
    ensures !IsAbs(root) && !IsAbs(f) ==> !IsAbs(r)
  {
    if root == "" then f
    else if root[|root| - 1] == '/' then root + f
    else root + "/" + f
  }

  /** Index of the last separator in `p`, or -1 when there is none. */
  function LastSeparator(p: Path): (k: int)
    ensures -1 <= k < |p|
    ensures k >= 0 ==> p[k] == '/'
    ensures forall j :: k < j < |p| ==> p[j] != '/'
  {
    if p == [] then -1
    else if p[|p| - 1] == '/' then |p| - 1
    else LastSeparator(p[..|p| - 1])
  }

  /** `Path.parent`: everything before the last separator; "/" for a file
      directly under the root, "." for a bare name. */
  function Parent(p: Path): (r: Path)
    ensures (forall j :: 0 <= j < |p| ==> p[j] != '/') ==> r == "."
    ensures IsAbs(p) && (forall j :: 0 < j < |p| ==> p[j] != '/') ==> r == "/"
    ensures (exists j :: 0 < j < |p| && p[j] == '/') ==>
              0 < |r| < |p| && r == p[..|r|] && p[|r|] == '/' &&
              forall j :: |r| < j < |p| ==> p[j] != '/'
  {
    var k := LastSeparator(p);
    if k < 0 then "." else if k == 0 then "/" else p[..k]
  }

  /** What the converters observe of the disk: which paths exist, and where
      `resolve()` takes a path (symlinks, `..`, the working directory). */
  datatype FileSystem = FileSystem(existing: set<Path>, canonical: Path -> Path) {
    predicate Exists(p: Path) {
      p in existing
    }

    function Resolve(p: Path): Path {
      canonical(p)
    }
  }

  /** The value of an `include_path` entry: a string, or a `pathlib.Path`
      object (which is always truthy). */
  datatype PathLike = Text(s: string) | PathObject(p: Path) {
    predicate Truthy() {
      Text? ==> s != ""
    }

    function ToString(): string {
      if Text? then s else p
    }
  }
}
