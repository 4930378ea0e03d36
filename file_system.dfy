/**
 * The parts of Node's `path` and `fs` modules that the link provider uses.
 * A path is the sequence of its segments below the filesystem root (so
 * `/course/questions` is ["course", "questions"] and `/` is []); what
 * `fs.stat` can see is a map from path to the kind of entry it finds there.
 */
module FileSystem {

  type Path = seq<string>

  /** What a successful `fs.stat` reports about an entry. */
  datatype EntryKind = RegularFile | Directory | OtherEntry

  /** The entries on which `fs.stat` succeeds; every other path makes it throw. */
  type FileSystem = map<Path, EntryKind>

  /** `path.join(p, name)` for a single plain segment. */
  function Join(p: Path, name: string): (r: Path)
    ensures |r| == |p| + 1 && r[..|p|] == p && r[|p|] == name
  {
    p + [name]
  }

  /** `path.join(p, "..")`: drop the last segment; the root is its own parent. */
  function Parent(p: Path): (r: Path)
    ensures p == [] ==> r == []
    ensures p != [] ==> |r| == |p| - 1 && r < p
  {
    if p == [] then [] else p[..|p| - 1]
  }

  /** `path.basename(p)`: the last segment, or "" for the root. */
  function Basename(p: Path): (r: string)
    ensures p == [] ==> r == ""
    ensures p != [] ==> Join(Parent(p), r) == p
  {
    if p == [] then "" else p[|p| - 1]
  }

  /**
   * `checkIsFile`: whether `fs.stat` succeeds on the path and reports a
   * regular file. A failing stat (missing entry, no permission) is not an
   * error: it reads as false.
   */
  function CheckIsFile(fs: FileSystem, p: Path): (r: bool)
    ensures r <==> p in fs && fs[p] == RegularFile
    ensures p !in fs ==> !r
  {
    p in fs && fs[p].RegularFile?
  }
}
