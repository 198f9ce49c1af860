/**
 * `AddonInstallParameters::deserialize`: the shape decode, and for the inline
 * shape the staging of the decoded package in a fresh file of the temp
 * directory. `StageAddon` says what happens as a function of the filesystem
 * before the call; `DecodeAddonInstall` does it step by step on a
 * `FileSystem` object and is proved to agree.
 */
module AddonInstall {
  import opened Basics
  import opened Json
  import opened Files
  import opened Parameters
  import Base64

  /** The staged file's name: "addon-<uuid>.xpi". */
  function StagedName(id: string): string
  {
    "addon-" + id + ".xpi"
  }

  /** The staged file's path inside the temp directory. */
  function StagedPath(tempDir: OsPath, id: string): OsPath
  {
    Join(tempDir, FromStr(StagedName(id)))
  }

  /**
   * The decode with its effect on the filesystem: the result, and the
   * filesystem after it. `tempDir` stands for `env::temp_dir()` and `id` for
   * the text of `Uuid::new_v4()`.
   */
  function StageAddon(body: Json, tempDir: OsPath, id: string, fs: FsState)
    : (out: (Result<AddonInstallParameters, DecodeError>, FsState))
    // Only a body of the inline shape can touch the filesystem.
    ensures !InlineForm(body) ==> out.1 == fs
    ensures PathForm(body) ==> out.0 == Ok(AddonInstallParameters(body.fields["path"].s, TemporaryOf(body.fields)))
    ensures !InlineForm(body) && !PathForm(body) ==> out.0 == Err(NoMatchingShape)
    // An inline body never falls back to the path shape.
    ensures InlineForm(body) && Base64.Decode(body.fields["addon"].s).None? ==> out == (Err(InvalidBase64), fs)
    ensures InlineForm(body) && Base64.Decode(body.fields["addon"].s).Some? ==>
      var bytes := Base64.Decode(body.fields["addon"].s).value;
      var path := StagedPath(tempDir, id);
      && (out.0.Ok? <==> fs.writable && (|bytes| == 0 || fs.freeSpace > 0) && ToStr(tempDir).Some?)
      && (out.0.Ok? ==> FromStr(out.0.value.path) == path && out.0.value.temporary == TemporaryOf(body.fields))
      && (!fs.writable ==> out == (Err(FileCreate), fs))
      && (fs.writable ==>
            && out.1.files == fs.files[path := bytes[..Min(|bytes|, fs.freeSpace)]]
            && out.1.freeSpace == fs.freeSpace - Min(|bytes|, fs.freeSpace))
      && out.1.writable == fs.writable
  {
    match DecodeAddonShape(body)
    case Err(e) => (Err(e), fs)
    case Ok(ByPath(path, temporary)) => (Ok(AddonInstallParameters(path, temporary)), fs)
    case Ok(Inline(addon, temporary)) =>
      match Base64.Decode(addon)
      case None => (Err(InvalidBase64), fs)
      case Some(content) =>
        var path := StagedPath(tempDir, id);
        JoinToStr(tempDir, StagedName(id));
        var created := Created(fs, path);
        if created.0.Err? then (Err(FileCreate), created.1)
        else
          assert created.1.files[path] + content[..Min(|content|, fs.freeSpace)] == content[..Min(|content|, fs.freeSpace)];
          var written := Written(created.1, path, content);
          if written.0.Err? then (Err(FileWrite), written.1)
          else
            match ToStr(path)
            case None => (Err(PathNotUnicode), written.1)
            case Some(s) => (Ok(AddonInstallParameters(s, temporary)), written.1)
  }

  /**
   * The decode as the source runs it. The count `write` returns is not looked
   * at, so a short write still yields a success.
   */
  method DecodeAddonInstall(body: Json, fs: FileSystem, tempDir: OsPath, id: string)
    returns (r: Result<AddonInstallParameters, DecodeError>)
    modifies fs
    ensures (r, fs.State()) == StageAddon(body, tempDir, id, old(fs.State()))
  {
    var shape :- DecodeAddonShape(body);
    match shape {
      case ByPath(path, temporary) =>
        r := Ok(AddonInstallParameters(path, temporary));
      case Inline(addon, temporary) =>
        var content := Base64.Decode(addon);
        if content.None? {
          return Err(InvalidBase64);
        }
        var path := StagedPath(tempDir, id);
        var created := fs.Create(path);
        if created.Err? {
          return Err(FileCreate);
        }
        var written := fs.Write(path, content.value);
        if written.Err? {
          return Err(FileWrite);
        }
        var s := ToStr(path);
        if s.None? {
          return Err(PathNotUnicode);
        }
        r := Ok(AddonInstallParameters(s.value, temporary));
    }
  }

  /** The staged file holds the decoded bytes whenever the device takes them all. */
  lemma StagedFileHoldsDecodedBytes(body: Json, tempDir: OsPath, id: string, fs: FsState)
    requires InlineForm(body) && Base64.Decode(body.fields["addon"].s).Some?
    requires |Base64.Decode(body.fields["addon"].s).value| <= fs.freeSpace
    ensures var out := StageAddon(body, tempDir, id, fs);
      out.0.Ok? ==>
        && FromStr(out.0.value.path) in out.1.files
        && out.1.files[FromStr(out.0.value.path)] == Base64.Decode(body.fields["addon"].s).value
  {
    var bytes := Base64.Decode(body.fields["addon"].s).value;
    assert bytes[..Min(|bytes|, fs.freeSpace)] == bytes;
  }

  /** With a name not yet in use (a fresh UUID), staging adds one file and changes no other. */
  lemma StagingKeepsOtherFiles(body: Json, tempDir: OsPath, id: string, fs: FsState)
    requires StagedPath(tempDir, id) !in fs.files
    ensures var after := StageAddon(body, tempDir, id, fs).1.files;
      && after.Keys <= fs.files.Keys + {StagedPath(tempDir, id)}
      && forall p :: p in fs.files ==> p in after && after[p] == fs.files[p]
  {
  }

  /** The source's inline test: "aGVsbG8=" with `temporary: true` stages "hello". */
  lemma InstallHello(tempDir: OsPath, id: string, fs: FsState)
    requires fs.writable && fs.freeSpace >= 5 && ToStr(tempDir).Some?
    ensures var out := StageAddon(Obj(map["addon" := Str("aGVsbG8="), "temporary" := Bool(true)]), tempDir, id, fs);
      && out.0.Ok?
      && out.0.value.temporary == Some(true)
      && FromStr(out.0.value.path) in out.1.files
      && out.1.files[FromStr(out.0.value.path)] == [104, 101, 108, 108, 111]
  {
    var body := Obj(map["addon" := Str("aGVsbG8="), "temporary" := Bool(true)]);
    assert InlineForm(body);
    Base64.DecodeHello();
    StagedFileHoldsDecodedBytes(body, tempDir, id, fs);
  }

  /** The same test run against a filesystem object, reading the file back. */
  method InstallHelloThenRead(tempDir: OsPath, id: string) returns (contents: seq<byte>)
    requires ToStr(tempDir).Some?
    ensures contents == [104, 101, 108, 108, 111]
  {
    var fs := new FileSystem(true, 4096);
    var body := Obj(map["addon" := Str("aGVsbG8="), "temporary" := Bool(true)]);
    ghost var before := fs.State();
    var r := DecodeAddonInstall(body, fs, tempDir, id);
    InstallHello(tempDir, id, before);
    contents := fs.files[FromStr(r.value.path)];
  }
}
