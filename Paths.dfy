/**
 * The two operations of std::filesystem::path that the expander uses, for
 * POSIX paths written with `/`: `dir / name` (main.cpp:26, main.cpp:54) and
 * `parent_path()` (main.cpp:54). Normalisation, repeated separators and root
 * names are not modelled.
 */
module Paths {

  type Path = string

  /** The position of the last `/` in `p`, or -1 when there is none. */
  function LastSlash(p: Path): (r: int)
    ensures -1 <= r < |p|
    ensures r >= 0 ==> p[r] == '/'
    ensures forall k :: r < k < |p| ==> p[k] != '/'
  {
    if p == [] then -1
    else if p[|p| - 1] == '/' then |p| - 1
    else LastSlash(p[..|p| - 1])
  }

  /**
   * `dir / name`: an absolute `name` replaces `dir`; otherwise the two are
   * joined with one separator, none being added after an empty `dir` or one
   * that already ends in `/`.
   */
  function Join(dir: Path, name: string): Path
  {
    if |name| > 0 && name[0] == '/' then name
    else if dir == [] || dir[|dir| - 1] == '/' then dir + name
    else dir + "/" + name
  }

  /** `parent_path()`: everything before the last separator; `/` for a file in the root, empty when there is no separator. */
  function Parent(p: Path): Path
  {
    var i := LastSlash(p);
    if i < 0 then "" else if i == 0 then "/" else p[..i]
  }

  /** The directory a file was joined to is that file's parent. */
  lemma ParentOfJoin(dir: Path, name: string)
    requires dir != [] && dir[|dir| - 1] != '/'
    requires name != [] && '/' !in name
    ensures Parent(Join(dir, name)) == dir
  {
    var p := Join(dir, name);
    assert p == dir + "/" + name;
    assert p[|dir|] == '/';
    assert forall k :: |dir| < k < |p| ==> p[k] == name[k - |dir| - 1];
    assert LastSlash(p) == |dir|;
    assert p[..|dir|] == dir;
  }
}
