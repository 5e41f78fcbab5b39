/** The directory helper of index.ts: the directory part of a path string. */
module Paths {

  /** Removes the last `/` of `path` and everything after it, as the replace with
      the pattern `[/][^/]*$` does; a path without `/` comes back unchanged. */
  function GetDir(path: string): (dir: string)
    ensures dir <= path
    ensures '/' !in path ==> dir == path
    ensures '/' in path ==> |dir| < |path| && path[|dir|] == '/' && '/' !in path[|dir| + 1..]
  {
    if '/' !in path then path
    else if path[|path| - 1] == '/' then path[..|path| - 1]
    else
      var init := path[..|path| - 1];
      assert path == init + [path[|path| - 1]];
      var dir := GetDir(init);
      assert path[|dir| + 1..] == init[|dir| + 1..] + [path[|path| - 1]];
      dir
  }

  /** The directory of `dir/name`, for a `name` without `/`, is `dir`: this is how
      the module's own directory is read from its path. */
  lemma GetDirOfChild(dir: string, name: string)
    requires '/' !in name
    ensures GetDir(dir + "/" + name) == dir
  {
    var path := dir + "/" + name;
    assert path[|dir|] == '/';
  }
}
