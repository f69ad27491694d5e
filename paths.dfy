/**
 * Paths and the choice of the target directory (src/lib.rs:112-117).
 *
 * A path is a sequence of segments; an absolute path starts with the empty
 * segment, so ["", "home", "me"] displays as "/home/me".
 */
module Paths {
  import opened Results

  type Path = seq<string>

  /** `PathBuf::join` with a relative single-segment argument. */
  function Join(base: Path, segment: string): (r: Path)
    ensures |r| == |base| + 1 && r[..|base|] == base && r[|base|] == segment
  {
    base + [segment]
  }

  /** The segments separated by '/'. */
  function Segments(p: Path): (r: string)
    ensures |p| >= 2 && p[0] == "" ==> |r| > 0 && r[0] == '/'
    ensures |p| >= 2 ==> |r| > |p[|p| - 1]| && r[|r| - |p[|p| - 1]| - 1] == '/'
    ensures |p| >= 2 ==> r[|r| - |p[|p| - 1]|..] == p[|p| - 1]
  {
    if p == [] then ""
    else if |p| == 1 then p[0]
    else Segments(p[..|p| - 1]) + "/" + p[|p| - 1]
  }

  /**
   * `Path::display`: the segments separated by '/', except that the root
   * alone, the single empty segment, displays as "/".
   */
  function Display(p: Path): (r: string)
    ensures p == [""] ==> r == "/"
    ensures |p| > 0 && p[0] == "" ==> |r| > 0 && r[0] == '/'
    ensures |p| >= 2 ==> |r| > |p[|p| - 1]| && r[|r| - |p[|p| - 1]| - 1] == '/'
    ensures |p| >= 2 ==> r[|r| - |p[|p| - 1]|..] == p[|p| - 1]
  {
    if p == [""] then "/" else Segments(p)
  }

  /** Displaying a joined path adds a '/' and the segment; a segment joined to the root follows the single '/'. */
  lemma DisplayJoin(base: Path, segment: string)
    requires base != []
    ensures Display(Join(base, segment)) == (if base == [""] then "/" else Display(base) + "/") + segment
  {
    var j := Join(base, segment);
    assert j[..|base|] == base;
    assert Display(j) == Segments(base) + "/" + segment;
  }

  /**
   * The directory the repository is cloned into: `--dir` if given, else
   * `--workspace` joined with the name, else the current directory joined
   * with the name.
   */
  function ResolveDir(dir: Option<Path>, workspace: Option<Path>, currentDir: Path, name: string): (r: Path)
    ensures dir.Some? ==> r == dir.value
    ensures dir.None? && workspace.Some? ==> r == Join(workspace.value, name)
    ensures dir.None? && workspace.None? ==> r == Join(currentDir, name)
    ensures dir.None? ==> |r| > 0 && r[|r| - 1] == name
  {
    dir.OrElse(MapOption(workspace, (w: Path) => Join(w, name))).UnwrapOr(Join(currentDir, name))
  }

  /** `--dir` overrides `--workspace`: once a directory is given, nothing else matters. */
  lemma DirOverridesWorkspace(d: Path, w1: Option<Path>, w2: Option<Path>, c1: Path, c2: Path, n1: string, n2: string)
    ensures ResolveDir(Some(d), w1, c1, n1) == ResolveDir(Some(d), w2, c2, n2) == d
  {
  }
}
