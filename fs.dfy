/**
 * The working tree as the tool sees it through package `os` and `path/filepath`:
 * a map from path to file contents and a set of directory paths. Paths use '/'
 * and are already clean (no "." or ".." elements, no doubled separators).
 */
module FileSystem {
  import opened Wrappers
  import opened Text
  import opened Yaml

  /** One entry of `os.ReadDir`. */
  datatype DirEntry = DirEntry(name: string, isDir: bool)

  predicate NoSlash(s: string)
  {
    forall i :: 0 <= i < |s| ==> s[i] != '/'
  }

  /** `filepath.Join(dir, name)` for a clean directory and a one-element name. */
  function JoinPath(dir: string, name: string): string
  {
    dir + "/" + name
  }

  /** `p` names an entry directly inside `dir`. */
  predicate IsChildPath(dir: string, p: string)
  {
    |p| > |dir| + 1 && p[..|dir| + 1] == dir + "/" && NoSlash(p[|dir| + 1..])
  }

  lemma JoinIsChild(dir: string, name: string)
    requires name != "" && NoSlash(name)
    ensures IsChildPath(dir, JoinPath(dir, name))
    ensures JoinPath(dir, name)[|dir| + 1..] == name
  {
    var p := JoinPath(dir, name);
    assert p[..|dir| + 1] == dir + "/";
    assert p[|dir| + 1..] == name;
  }

  /** The part of `q` after its last '/'. */
  function AfterLastSlash(q: string): (r: string)
    ensures NoSlash(r) && HasSuffix(q, r)
    ensures |r| < |q| ==> q[|q| - |r| - 1] == '/'
  {
    if |q| == 0 then q
    else if q[|q| - 1] == '/' then ""
    else
      var r := AfterLastSlash(q[..|q| - 1]) + [q[|q| - 1]];
      assert HasSuffix(q[..|q| - 1], r[..|r| - 1]);
      r
  }

  /** `filepath.Base(p)`: the last element; "." for "" and "/" for a path of slashes. */
  function Base(p: string): (r: string)
    ensures r != ""
    ensures r == "/" || NoSlash(r)
  {
    if p == "" then "."
    else
      var q := TrimRight(p, {'/'});
      if q == "" then "/"
      else
        var r := AfterLastSlash(q);
        assert r != "" by { assert q[|q| - 1] != '/'; }
        r
  }

  /** `filepath.Ext` scanning down from position `i`; nothing above `i` is a separator. */
  function ExtFrom(p: string, i: int): (r: string)
    requires i < |p|
    requires forall j :: 0 <= j < |p| && i < j ==> p[j] != '/'
    ensures r == "" || (r[0] == '.' && NoSlash(r) && HasSuffix(p, r))
    decreases i + 1
  {
    if i < 0 || p[i] == '/' then ""
    else if p[i] == '.' then p[i..]
    else ExtFrom(p, i - 1)
  }

  /** `filepath.Ext(p)`: the suffix from the final '.' of the last element, or "". */
  function Ext(p: string): (r: string)
    ensures r == "" || (r[0] == '.' && NoSlash(r) && HasSuffix(p, r))
  {
    ExtFrom(p, |p| - 1)
  }

  /** The directory holding `p`; "." (the working directory) for a bare name. */
  predicate InWorkingDir(p: string)
  {
    NoSlash(p)
  }

  /** `p` and every ancestor directory `os.MkdirAll(p)` creates. */
  function DirChain(p: string): set<string>
  {
    {p} + set i | 0 < i < |p| && p[i] == '/' :: p[..i]
  }

  /** The directory part of a path that contains a '/'. */
  function Dir(p: string): (r: string)
    ensures |p| > 0 ==> |r| < |p|
  {
    if |p| == 0 then ""
    else if p[|p| - 1] == '/' then p[..|p| - 1]
    else Dir(p[..|p| - 1])
  }

  /**
   * The names a directory listing offers under a file-name filter: for every
   * regular file whose name passes `keep`, the name without `suffix`.
   */
  ghost function Stems(entries: seq<DirEntry>, keep: string -> bool, suffix: string): set<string>
  {
    set e | e in entries && !e.isDir && keep(e.name) :: TrimSuffix(e.name, suffix)
  }

  /** The same names computed from the set of regular files in the directory. */
  ghost function StemsOf(names: set<string>, keep: string -> bool, suffix: string): set<string>
  {
    set n | n in names && keep(n) :: TrimSuffix(n, suffix)
  }

  /** One more entry of a listing with distinct names adds a new name, or none. */
  lemma StemStep(entries: seq<DirEntry>, i: nat, keep: string -> bool, suffix: string)
    requires i < |entries|
    requires forall a, b :: 0 <= a < b < |entries| ==> entries[a].name != entries[b].name
    requires forall n :: keep(n) ==> HasSuffix(n, suffix)
    ensures !entries[i].isDir && keep(entries[i].name) ==>
      && Stems(entries[..i + 1], keep, suffix) == Stems(entries[..i], keep, suffix) + {TrimSuffix(entries[i].name, suffix)}
      && TrimSuffix(entries[i].name, suffix) !in Stems(entries[..i], keep, suffix)
    ensures entries[i].isDir || !keep(entries[i].name) ==>
      Stems(entries[..i + 1], keep, suffix) == Stems(entries[..i], keep, suffix)
  {
    assert entries[..i + 1] == entries[..i] + [entries[i]];
    if !entries[i].isDir && keep(entries[i].name) {
      var s := TrimSuffix(entries[i].name, suffix);
      forall e | e in entries[..i] && !e.isDir && keep(e.name)
        ensures TrimSuffix(e.name, suffix) != s
      {
        var k :| 0 <= k < i && entries[k] == e;
        assert e.name == TrimSuffix(e.name, suffix) + suffix;
        assert entries[i].name == s + suffix;
      }
    }
  }

  /** A listing that shows exactly the regular files `names` offers the same stems. */
  lemma StemsOfListing(names: set<string>, entries: seq<DirEntry>, keep: string -> bool, suffix: string)
    requires forall n :: n in names <==> DirEntry(n, false) in entries
    ensures Stems(entries, keep, suffix) == StemsOf(names, keep, suffix)
  {
    forall x | x in Stems(entries, keep, suffix) ensures x in StemsOf(names, keep, suffix) {
      var e :| e in entries && !e.isDir && keep(e.name) && TrimSuffix(e.name, suffix) == x;
      assert DirEntry(e.name, false) == e;
    }
    forall x | x in StemsOf(names, keep, suffix) ensures x in Stems(entries, keep, suffix) {
      var n :| n in names && keep(n) && TrimSuffix(n, suffix) == x;
      assert DirEntry(n, false) in entries;
    }
  }

  class Disk {
    /** Regular files: path to contents. */
    var files: map<string, string>
    /** Directories. */
    var dirs: set<string>
    /** The YAML library the tool is linked with. */
    const syntax: Syntax

    constructor (syntax: Syntax, files: map<string, string>, dirs: set<string>)
      ensures this.syntax == syntax && this.files == files && this.dirs == dirs
    {
      this.syntax := syntax;
      this.files := files;
      this.dirs := dirs;
    }

    /** `os.Stat(p)` succeeds. */
    predicate Exists(p: string)
      reads this
    {
      p in files || p in dirs
    }

    /**
     * A proper ancestor of `p` is a regular file, so the system refuses to
     * look `p` up at all (ENOTDIR) rather than reporting it missing.
     */
    predicate UnderFile(p: string)
      reads this
    {
      exists i :: 0 < i < |p| && p[i] == '/' && p[..i] in files
    }

    /** `os.IsNotExist` holds of the error `os.Stat(p)` reports. */
    predicate Missing(p: string)
      reads this
    {
      !Exists(p) && !UnderFile(p)
    }

    /** The error `os.Stat(p)` reports for a path that does not exist. */
    function StatError(p: string): (e: Error)
      reads this
      ensures e.NotFound? <==> !UnderFile(p)
      ensures e.NotFound? || e.NotADirectory?
    {
      if UnderFile(p) then NotADirectory(p) else NotFound(p)
    }

    /** The parent directory of `p` exists, so a file can be created at `p`. */
    predicate ParentExists(p: string)
      reads this
    {
      InWorkingDir(p) || Dir(p) in dirs
    }

    /** `os.ReadFile(p)`. */
    function ReadFile(p: string): (r: Result<string>)
      reads this
      ensures r.Ok? <==> p in files
      ensures r.Ok? ==> r.value == files[p]
      ensures p in dirs && p !in files ==> r == Err(IsADirectory(p))
      ensures !Exists(p) ==> r == Err(StatError(p))
      ensures r.Err? && r.error.NotFound? <==> Missing(p)
    {
      if p in files then Ok(files[p])
      else if p in dirs then Err(IsADirectory(p))
      else Err(StatError(p))
    }

    /** Names of the regular files directly inside `dir`. */
    function FileChildren(dir: string): set<string>
      reads this
    {
      set p | p in files && p !in dirs && IsChildPath(dir, p) :: p[|dir| + 1..]
    }

    /** Names of the directories directly inside `dir`. */
    function DirChildren(dir: string): set<string>
      reads this
    {
      set p | p in dirs && IsChildPath(dir, p) :: p[|dir| + 1..]
    }

    lemma FileChildrenMembers(dir: string, name: string)
      ensures name in FileChildren(dir) <==>
        name != "" && NoSlash(name) && JoinPath(dir, name) in files && JoinPath(dir, name) !in dirs
    {
      if name in FileChildren(dir) {
        var p :| p in files && p !in dirs && IsChildPath(dir, p) && p[|dir| + 1..] == name;
        assert p == p[..|dir| + 1] + p[|dir| + 1..];
      }
      if name != "" && NoSlash(name) && JoinPath(dir, name) in files && JoinPath(dir, name) !in dirs {
        JoinIsChild(dir, name);
      }
    }

    lemma DirChildrenMembers(dir: string, name: string)
      ensures name in DirChildren(dir) <==> name != "" && NoSlash(name) && JoinPath(dir, name) in dirs
    {
      if name in DirChildren(dir) {
        var p :| p in dirs && IsChildPath(dir, p) && p[|dir| + 1..] == name;
        assert p == p[..|dir| + 1] + p[|dir| + 1..];
      }
      if name != "" && NoSlash(name) && JoinPath(dir, name) in dirs {
        JoinIsChild(dir, name);
      }
    }

    /**
     * `os.ReadDir(dir)`: the entries directly inside `dir`, sorted by name,
     * each marked as a directory or not.
     */
    method ReadDir(dir: string) returns (r: Result<seq<DirEntry>>)
      ensures r.Ok? <==> dir in dirs
      ensures dir !in dirs && dir !in files ==> r == Err(StatError(dir))
      ensures dir in files && dir !in dirs ==> r == Err(NotADirectory(dir))
      ensures r.Err? && r.error.NotFound? <==> Missing(dir)
      ensures r.Ok? ==> forall i, j :: 0 <= i < j < |r.value| ==> r.value[i].name != r.value[j].name
      ensures r.Ok? ==> forall n :: n in FileChildren(dir) <==> DirEntry(n, false) in r.value
      ensures r.Ok? ==> forall n :: n in DirChildren(dir) <==> DirEntry(n, true) in r.value
    {
      if dir !in dirs {
        return if dir in files then Err(NotADirectory(dir)) else Err(StatError(dir));
      }
      var fileNames := FileChildren(dir);
      var dirNames := DirChildren(dir);
      assert fileNames !! dirNames by {
        forall n | n in fileNames ensures n !in dirNames {
          FileChildrenMembers(dir, n);
          DirChildrenMembers(dir, n);
        }
      }
      var names := SortedKeys(fileNames + dirNames);
      SortedKeysMembers(names, fileNames + dirNames);
      SortedKeysDistinct(names, fileNames + dirNames);
      var entries := seq(|names|, i requires 0 <= i < |names| => DirEntry(names[i], names[i] in dirNames));
      assert forall e :: e in entries <==> e.name in names && e.isDir == (e.name in dirNames) by {
        forall e ensures e in entries <==> e.name in names && e.isDir == (e.name in dirNames) {
          if e.name in names {
            var i :| 0 <= i < |names| && names[i] == e.name;
            assert entries[i] == DirEntry(e.name, e.name in dirNames);
          }
        }
      }
      r := Ok(entries);
    }

    /**
     * `os.WriteFile(p, data, 0o644)`: create or truncate `p`. It fails on a
     * directory, when the parent directory is missing (ENOTDIR when a regular
     * file stands in its way), and, unpredictably, on any other I/O error; a
     * failed write leaves the tree unchanged.
     */
    method WriteFile(p: string, data: string) returns (err: Option<Error>)
      modifies this
      ensures dirs == old(dirs)
      ensures err.None? ==> files == old(files)[p := data]
      ensures err.Some? ==> files == old(files)
      ensures p in old(dirs) ==> err == Some(IsADirectory(p))
      ensures p !in old(dirs) && !old(ParentExists(p)) ==> err == Some(old(StatError(p)))
    {
      if p in dirs {
        return Some(IsADirectory(p));
      }
      if !ParentExists(p) {
        return Some(StatError(p));
      }
      var failed: bool :| true;
      if failed {
        return Some(IOFailure(p));
      }
      files := files[p := data];
      return None;
    }

    /**
     * `os.MkdirAll(p, 0o755)`: create `p` and its missing ancestors; it fails,
     * creating nothing, when one of them is a regular file.
     */
    method MkdirAll(p: string) returns (err: Option<Error>)
      modifies this
      ensures files == old(files)
      ensures err.None? <==> DirChain(p) !! old(files).Keys
      ensures err.None? ==> dirs == old(dirs) + DirChain(p)
      ensures err.Some? ==> dirs == old(dirs) && err.value.NotADirectory?
    {
      if !(DirChain(p) !! files.Keys) {
        return Some(NotADirectory(p));
      }
      dirs := dirs + DirChain(p);
      return None;
    }
  }
}
