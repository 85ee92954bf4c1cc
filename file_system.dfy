/** The local file system as the account-key cache uses it: text files by
    path, and the set of directories that exist. Paths are relative and
    '/'-separated. */
module FileSystem {

  /** Index of the last '/' in `path`, or -1 when there is none. */
  function LastSlash(path: string): (k: int)
    ensures -1 <= k < |path|
    ensures k >= 0 ==> path[k] == '/'
    ensures forall i :: k < i < |path| ==> path[i] != '/'
    decreases |path|
  {
    if path == [] then -1
    else if path[|path| - 1] == '/' then |path| - 1
    else LastSlash(path[..|path| - 1])
  }

  /** `Path.GetDirectoryName`: everything before the last '/', or "" for a bare file name. */
  function DirectoryName(path: string): (dir: string)
    ensures |dir| < |path| || (dir == [] && path == [])
    ensures '/' !in path ==> dir == []
    ensures '/' in path ==> path[..|dir|] == dir && path[|dir|] == '/' && '/' !in path[|dir| + 1..]
  {
    var k := LastSlash(path);
    if k < 0 then [] else path[..k]
  }

  /** The directory part of `dir + "/" + name` is `dir` whenever the file name has no '/'. */
  lemma DirectoryOfFile(dir: string, name: string)
    requires '/' !in name
    ensures DirectoryName(dir + "/" + name) == dir
  {
    var path := dir + "/" + name;
    var k := LastSlash(path);
    assert path[|dir|] == '/';
    forall i | |dir| < i < |path| ensures path[i] != '/' {
      assert path[i] == name[i - |dir| - 1];
    }
    assert path[..|dir|] == dir;
  }

  /** The file store. */
  class FileStore {
    var files: map<string, string>
    var directories: set<string>

    constructor (files0: map<string, string>, directories0: set<string>)
      ensures files == files0 && directories == directories0
    {
      files := files0;
      directories := directories0;
    }

    /** `File.Exists(path)`. */
    predicate Exists(path: string)
      reads this
    {
      path in files
    }

    /** `File.ReadAllTextAsync(path)` of an existing file. */
    function ReadAllText(path: string): string
      requires Exists(path)
      reads this
    {
      files[path]
    }

    /** `Directory.Exists(dir)`. */
    predicate DirectoryExists(dir: string)
      reads this
    {
      dir in directories
    }

    /** `Directory.CreateDirectory(dir)`. */
    method CreateDirectory(dir: string)
      modifies this
      ensures directories == old(directories) + {dir} && files == old(files)
    {
      directories := directories + {dir};
    }

    /** `File.WriteAllTextAsync(path, text)`: creates or overwrites the file;
        fails, leaving everything as it was, when its directory is missing. */
    method WriteAllText(path: string, text: string) returns (written: bool)
      modifies this
      ensures written <==> DirectoryName(path) == [] || DirectoryName(path) in old(directories)
      ensures files == (if written then old(files)[path := text] else old(files))
      ensures directories == old(directories)
    {
      written := DirectoryName(path) == [] || DirectoryName(path) in directories;
      if written {
        files := files[path := text];
      }
    }
  }
}
