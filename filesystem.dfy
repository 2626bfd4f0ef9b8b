/** The part of the filesystem the driver touches: regular files with
    their contents, mode and executable flag, directories, and the
    directories the process may write to. Two flags stand for the
    failures of file_put_contents and chmod that the state does not
    explain (a full disk, a file owned by another user). */
module FileSystems {
  import opened Outcomes

  datatype FileEntry = FileEntry(contents: string, mode: nat, executable: bool)

  datatype FsState = FsState(
    files: map<Path, FileEntry>,
    dirs: set<Path>,
    writable: set<Path>,
    writeFails: bool,
    chmodFails: bool)

  /** The mode chmod gives the autorun file (octal 0777). */
  const AutoRunMode: nat := 511

  /** The mode of a file that file_put_contents creates (0644, for the
      usual umask 022). */
  const NewFileMode: nat := 420

  /** Whether a mode has the owner's execute bit. */
  predicate ExecutableMode(mode: nat) {
    (mode / 64) % 2 == 1
  }

  /** file_exists: true for files and directories alike. Paths are
      compared as written, without normalisation. */
  predicate Exists(fs: FsState, p: Path)
    ensures p in fs.dirs ==> Exists(fs, p)
  {
    p in fs.files || p in fs.dirs
  }

  /** is_executable: only a file whose executable flag is set; a
      directory is never executable here. */
  predicate IsExecutable(fs: FsState, p: Path)
    ensures IsExecutable(fs, p) ==> Exists(fs, p) && p in fs.files
  {
    p in fs.files && fs.files[p].executable
  }

  /** file_put_contents: the amount written (None for PHP's false),
      counted in characters rather than bytes; the only use made of it is
      the test for zero. A directory cannot be written; an existing file
      keeps its mode, a new one gets NewFileMode. */
  function PutContents(fs: FsState, p: Path, data: string): (r: (FsState, Option<nat>))
    ensures r.1.None? <==> fs.writeFails || p in fs.dirs
    ensures r.1.None? ==> r.0 == fs
    ensures r.1.Some? ==> (
      r.1.value == |data| && p in r.0.files &&
      r.0 == fs.(files := fs.files[p := r.0.files[p]]) &&
      r.0.files[p].contents == data &&
      (p in fs.files ==> r.0.files[p] == fs.files[p].(contents := data)) &&
      (p !in fs.files ==> r.0.files[p] == FileEntry(data, NewFileMode, false)))
  {
    if fs.writeFails || p in fs.dirs then (fs, None)
    else
      var entry :=
        if p in fs.files then fs.files[p].(contents := data)
        else FileEntry(data, NewFileMode, ExecutableMode(NewFileMode));
      (fs.(files := fs.files[p := entry]), Some(|data|))
  }

  /** chmod on a file sets its mode and the executable flag with it; it
      fails for a missing path. Directory modes are not tracked. */
  function Chmod(fs: FsState, p: Path, mode: nat): (r: (FsState, bool))
    ensures r.1 <==> !fs.chmodFails && Exists(fs, p)
    ensures !r.1 || p !in fs.files ==> r.0 == fs
    ensures r.1 && p in fs.files ==>
      r.0 == fs.(files := fs.files[p := FileEntry(fs.files[p].contents, mode, ExecutableMode(mode))])
  {
    if fs.chmodFails || !Exists(fs, p) then (fs, false)
    else if p in fs.files then
      (fs.(files := fs.files[p := fs.files[p].(mode := mode, executable := ExecutableMode(mode))]), true)
    else (fs, true)
  }

  /** Strips trailing '/' characters. */
  function DropSlashes(s: string): (r: string)
    ensures |r| <= |s| && r == s[..|r|]
    ensures r == [] || r[|r| - 1] != '/'
  {
    if s != [] && s[|s| - 1] == '/' then DropSlashes(s[..|s| - 1]) else s
  }

  /** Strips the trailing run of non-'/' characters. */
  function DropName(s: string): (r: string)
    ensures |r| <= |s| && r == s[..|r|]
    ensures r == [] || r[|r| - 1] == '/'
  {
    if s != [] && s[|s| - 1] != '/' then DropName(s[..|s| - 1]) else s
  }

  /** PHP's dirname on a path: drop trailing slashes, the last name and
      the slashes before it; "." when there is no slash and "/" when
      only slashes are left. */
  function Dirname(p: Path): (r: Path)
    ensures r == "" <==> p == ""
    ensures p != "" && r != "." && r != "/" ==>
      |r| < |p| && r == p[..|r|] && r[|r| - 1] != '/'
  {
    if p == "" then ""
    else
      var a := DropSlashes(p);
      if a == "" then "/"
      else
        var b := DropName(a);
        if b == "" then "."
        else
          var c := DropSlashes(b);
          if c == "" then "/" else c
  }

  lemma {:induction false} DropNameOfJoin(dir: string, name: string)
    requires '/' !in name
    ensures DropName(dir + "/" + name) == dir + "/"
  {
    if name != [] {
      var n := name[..|name| - 1];
      assert (dir + "/" + name)[..|dir + "/" + name| - 1] == dir + "/" + n;
      assert '/' !in n by {
        forall c | c in n ensures c in name { }
      }
      DropNameOfJoin(dir, n);
    } else {
      assert dir + "/" + name == dir + "/";
    }
  }

  lemma {:induction false} DropSlashesOfSlashed(dir: string)
    ensures DropSlashes(dir + "/") == DropSlashes(dir)
  {
    assert (dir + "/")[..|dir + "/"| - 1] == dir;
  }

  /** The directory of dir + "/" + name, for a non-empty name without
      '/', is dir without its trailing slashes ("/" if nothing is left). */
  lemma DirnameOfJoin(dir: string, name: string)
    requires name != "" && '/' !in name
    ensures Dirname(dir + "/" + name) ==
      if DropSlashes(dir) == "" then "/" else DropSlashes(dir)
  {
    var p := dir + "/" + name;
    assert p[|p| - 1] == name[|name| - 1];
    assert name[|name| - 1] in name;
    assert DropSlashes(p) == p;
    DropNameOfJoin(dir, name);
    DropSlashesOfSlashed(dir);
  }

  /** The filesystem the driver sees and changes. */
  class FileSystem {
    var files: map<Path, FileEntry>
    var dirs: set<Path>
    var writable: set<Path>
    var writeFails: bool
    var chmodFails: bool

    function State(): FsState
      reads this
    {
      FsState(files, dirs, writable, writeFails, chmodFails)
    }

    constructor (s: FsState)
      ensures State() == s
    {
      files, dirs, writable := s.files, s.dirs, s.writable;
      writeFails, chmodFails := s.writeFails, s.chmodFails;
    }

    method FilePutContents(p: Path, data: string) returns (written: Option<nat>)
      modifies this
      ensures (State(), written) == PutContents(old(State()), p, data)
    {
      var r := PutContents(State(), p, data);
      files := r.0.files;
      written := r.1;
    }

    method ChangeMode(p: Path, mode: nat) returns (ok: bool)
      modifies this
      ensures (State(), ok) == Chmod(old(State()), p, mode)
    {
      var r := Chmod(State(), p, mode);
      files := r.0.files;
      ok := r.1;
    }
  }
}
