/**
 * Rust's `Path::file_name` on Unix paths: the final component of a path when it is a normal one.
 * Separators are `/`; empty components (repeated or trailing separators) and `.` components are
 * skipped; a final `..` or a path with no normal component at all has no file name.
 */
module StdPath {
  import opened Wrappers
  import opened Strings

  /** A component that `Path::components` yields as `Component::Normal`. */
  predicate IsNormalComponent(c: string)
  {
    c != "" && c != "." && c != ".." && '/' !in c
  }

  function FileName(path: string): (name: Option<string>)
    ensures name.Some? ==> IsNormalComponent(name.value)
  {
    LastNormal(SplitOn(path, '/'))
  }

  /** Scan the pieces from the right past empty and `.` pieces; a `..` there ends the search. */
  function LastNormal(pieces: seq<string>): (name: Option<string>)
    requires forall i | 0 <= i < |pieces| :: '/' !in pieces[i]
    ensures name.Some? ==> IsNormalComponent(name.value) && name.value in pieces
  {
    if pieces == [] then None
    else
      var last := pieces[|pieces| - 1];
      if last == "" || last == "." then LastNormal(pieces[..|pieces| - 1])
      else if last == ".." then None
      else Some(last)
  }

  /** Appending `/c` for a normal component `c` makes `c` the file name, whatever came before. */
  lemma FileNameOfChild(parent: string, c: string)
    requires IsNormalComponent(c)
    ensures FileName(parent + "/" + c) == Some(c)
  {
    assert parent + "/" + c == parent + ['/'] + c;
    SplitAtSeparator(parent, c, '/');
    SplitFree(c, '/');
  }

  /** A path that ends in `/..` has no file name. */
  lemma FileNameOfParentDir(parent: string)
    ensures FileName(parent + "/..") == None
  {
    assert parent + "/.." == parent + ['/'] + "..";
    SplitAtSeparator(parent, "..", '/');
    SplitFree("..", '/');
  }

  /** Trailing separators and `.` components do not change the file name. */
  lemma FileNameIgnoresTrailing(path: string, trailer: string)
    requires trailer == "/" || trailer == "/."
    ensures FileName(path + trailer) == FileName(path)
  {
    assert path + trailer == path + ['/'] + trailer[1..];
    SplitAtSeparator(path, trailer[1..], '/');
    SplitFree(trailer[1..], '/');
    var pieces := SplitOn(path, '/') + [trailer[1..]];
    assert pieces[..|pieces| - 1] == SplitOn(path, '/');
  }

  lemma FileNameOfEmpty()
    ensures FileName("") == None
  {
    assert SplitOn("", '/') == [""];
    assert [""][..0] == [];
  }
}
