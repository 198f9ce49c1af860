/**
 * The slice of the operating system the add-on decoder touches: paths,
 * `Path::to_str`, `Path::join`, and a filesystem on which `File::create` and
 * `write` act. The filesystem is an object the decoder updates in place; its
 * behaviour is given by pure functions over a snapshot `FsState`.
 */
module Files {
  import opened Basics

  /** One unit of an OS path: a Unicode scalar, or a byte that is not valid UTF-8. */
  datatype OsUnit = Char(c: char) | InvalidByte(b: byte)

  type OsPath = seq<OsUnit>

  const Separator := Char('/')

  /** The path spelled by a Rust string. */
  function FromStr(s: string): (p: OsPath)
    ensures |p| == |s|
    ensures forall i :: 0 <= i < |s| ==> p[i] == Char(s[i])
  {
    seq(|s|, i requires 0 <= i < |s| => Char(s[i]))
  }

  /** `Path::to_str`: the path as a string, or `None` when it is not valid Unicode. */
  function ToStr(p: OsPath): (r: Option<string>)
    ensures r.Some? <==> forall i :: 0 <= i < |p| ==> p[i].Char?
    ensures r.Some? ==> FromStr(r.value) == p
    decreases |p|
  {
    if p == [] then Some([])
    else
      match p[0]
      case InvalidByte(_) => None
      case Char(c) =>
        var rest :- ToStr(p[1..]);
        Some([c] + rest)
  }

  lemma ToStrFromStr(s: string)
    ensures ToStr(FromStr(s)) == Some(s)
  {
    var r := ToStr(FromStr(s));
    assert r.Some?;
    assert |r.value| == |s|;
    forall i | 0 <= i < |s| ensures r.value[i] == s[i] {
      assert FromStr(r.value)[i] == FromStr(s)[i];
    }
    assert r.value == s;
  }

  /** `Path::join` with Unix separators: an absolute `name` replaces `dir`. */
  function Join(dir: OsPath, name: OsPath): OsPath
  {
    if |name| > 0 && name[0] == Separator then name
    else if dir == [] || dir[|dir| - 1] == Separator then dir + name
    else dir + [Separator] + name
  }

  /** Joining a relative Unicode name keeps or loses Unicode-ness with `dir`. */
  lemma JoinToStr(dir: OsPath, name: string)
    requires |name| > 0 && name[0] != '/'
    ensures ToStr(Join(dir, FromStr(name))).Some? <==> ToStr(dir).Some?
  {
    var p := Join(dir, FromStr(name));
    if ToStr(dir).Some? {
      forall i | 0 <= i < |p| ensures p[i].Char? {
        if i >= |dir| {
          assert p[i] in [Separator] + FromStr(name);
        }
      }
    } else {
      var i :| 0 <= i < |dir| && !dir[i].Char?;
      assert p[i] == dir[i];
    }
  }

  /** A snapshot of the filesystem: file contents, whether new files may be
      created in the temp directory, and how many bytes the device still takes. */
  datatype FsState = FsState(files: map<OsPath, seq<byte>>, writable: bool, freeSpace: nat)

  datatype IoError = NotWritable | NoSpace

  /** `File::create`: creates the file, or truncates it if it exists. */
  function Created(fs: FsState, path: OsPath): (Result<(), IoError>, FsState)
  {
    if fs.writable then (Ok(()), fs.(files := fs.files[path := []]))
    else (Err(NotWritable), fs)
  }

  /**
   * One `write` call: it appends as many bytes as the device takes and reports
   * how many; it fails only when it can write nothing at all.
   */
  function Written(fs: FsState, path: OsPath, data: seq<byte>): (Result<nat, IoError>, FsState)
    requires path in fs.files
  {
    if |data| > 0 && fs.freeSpace == 0 then (Err(NoSpace), fs)
    else
      var n := Min(|data|, fs.freeSpace);
      (Ok(n), fs.(files := fs.files[path := fs.files[path] + data[..n]], freeSpace := fs.freeSpace - n))
  }

  class FileSystem {
    var files: map<OsPath, seq<byte>>
    var writable: bool
    var freeSpace: nat

    function State(): FsState
      reads this
    {
      FsState(files, writable, freeSpace)
    }

    constructor (writable: bool, freeSpace: nat)
      ensures State() == FsState(map[], writable, freeSpace)
    {
      this.files := map[];
      this.writable := writable;
      this.freeSpace := freeSpace;
    }

    method Create(path: OsPath) returns (r: Result<(), IoError>)
      modifies this
      ensures (r, State()) == Created(old(State()), path)
    {
      if writable {
        files := files[path := []];
        r := Ok(());
      } else {
        r := Err(NotWritable);
      }
    }

    method Write(path: OsPath, data: seq<byte>) returns (r: Result<nat, IoError>)
      requires path in files
      modifies this
      ensures (r, State()) == Written(old(State()), path, data)
    {
      if |data| > 0 && freeSpace == 0 {
        r := Err(NoSpace);
      } else {
        var n := Min(|data|, freeSpace);
        files := files[path := files[path] + data[..n]];
        freeSpace := freeSpace - n;
        r := Ok(n);
      }
    }
  }
}
