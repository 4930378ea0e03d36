/**
 * Finding the course root: the nearest directory, from the document's own
 * directory up to the workspace folder, that holds `infoCourse.json` as a
 * regular file.
 */
module RootLocator {
  import opened Wrappers
  import opened FileSystem

  const MarkerName: string := "infoCourse.json"

  /** Directory `dir` holds the marker as a regular file. */
  predicate HasMarker(fs: FileSystem, dir: Path) {
    CheckIsFile(fs, Join(dir, MarkerName))
  }

  /**
   * `nearestInfoCourse(rootPath, currentPath)`. The marker test comes before
   * the boundary test, so a marker in the workspace folder itself is found.
   * `rootPath` lying on the way up from `currentPath` is sufficient for the
   * walk to terminate, not necessary: from any other start the walk never
   * meets the boundary, and since the root directory is its own parent it
   * goes on forever at `/` unless a directory on the way up holds the marker.
   */
  function NearestInfoCourse(fs: FileSystem, rootPath: Path, currentPath: Path): (r: Option<Path>)
    requires rootPath <= currentPath
    decreases |currentPath|
    // a found root is a marker directory between the boundary and the start ...
    ensures r.Some? ==> rootPath <= r.value <= currentPath && HasMarker(fs, r.value)
    // ... and no directory below it on the way up holds the marker
    ensures r.Some? ==> forall k :: |r.value| < k <= |currentPath| ==> !HasMarker(fs, currentPath[..k])
    // nothing is found exactly when no directory from the start up to the boundary holds the marker
    ensures r.None? <==> forall k :: |rootPath| <= k <= |currentPath| ==> !HasMarker(fs, currentPath[..k])
  {
    if HasMarker(fs, currentPath) then
      assert currentPath[..|currentPath|] == currentPath;
      Some(currentPath)
    else if currentPath == rootPath then
      assert currentPath[..|currentPath|] == currentPath;
      None
    else
      var parent := Parent(currentPath);
      assert parent == currentPath[..|currentPath| - 1];
      assert forall k :: 0 <= k <= |parent| ==> parent[..k] == currentPath[..k];
      assert currentPath[..|currentPath|] == currentPath;
      NearestInfoCourse(fs, rootPath, parent)
  }

  /**
   * `findPrairieLearnRoot`: no workspace folder means no root; otherwise walk
   * up from the document's directory to the workspace folder. The host only
   * reports a workspace folder that contains the document.
   */
  function FindPrairieLearnRoot(fs: FileSystem, workspaceFolder: Option<Path>, documentPath: Path): (r: Option<Path>)
    requires workspaceFolder.Some? ==> workspaceFolder.value < documentPath
    ensures workspaceFolder.None? ==> r.None?
    ensures r.Some? ==> workspaceFolder.value <= r.value < documentPath && HasMarker(fs, r.value)
    // the root is the first marker directory on the way up from the document's directory ...
    ensures r.Some? ==> forall k :: |r.value| < k < |documentPath| ==> !HasMarker(fs, documentPath[..k])
    // ... and there is none exactly when no directory from there up to the workspace folder holds the marker
    ensures workspaceFolder.Some? ==>
              (r.None? <==> forall k :: |workspaceFolder.value| <= k < |documentPath| ==> !HasMarker(fs, documentPath[..k]))
  {
    match workspaceFolder
    case None => None
    case Some(folder) =>
      var dir := Parent(documentPath);
      assert folder <= dir;
      assert forall k :: 0 <= k <= |dir| ==> dir[..k] == documentPath[..k];
      NearestInfoCourse(fs, folder, dir)
  }

  /**
   * Starting at `/course/questions/foo` with boundary `/course`, where only
   * `/course` holds the marker, the walk returns `/course`.
   */
  lemma CourseRootScenario()
    ensures NearestInfoCourse(map[["course", "infoCourse.json"] := RegularFile],
                              ["course"], ["course", "questions", "foo"]) == Some(["course"])
  {
    var fs := map[["course", "infoCourse.json"] := RegularFile];
    assert !HasMarker(fs, ["course", "questions", "foo"]);
    assert Parent(["course", "questions", "foo"]) == ["course", "questions"];
    assert !HasMarker(fs, ["course", "questions"]);
    assert Parent(["course", "questions"]) == ["course"];
    assert Join(["course"], MarkerName) == ["course", "infoCourse.json"];
    assert HasMarker(fs, ["course"]);
  }
}
