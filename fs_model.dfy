/**
 * The slice of Rust's `std::fs` / `std::path` behaviour the daemon depends on: which
 * `OpenOptions` combinations `open` accepts, what opening does to an abstract file
 * table, writes, removal, and `PathBuf::join` / `set_extension` on the last component.
 */
module FsModel {
  import opened Wrappers
  import opened Strings

  /** The operating system family the binary was built for (`#[cfg(unix)]`, `#[cfg(windows)]`). */
  datatype Platform = Unix | Windows | OtherOs

  /** `std::io::Error`, reduced to the kinds the model produces. */
  datatype IoError = InvalidInput | NotFound | PermissionDenied | AlreadyExists | Other(message: string)

  /** The Display text of an error, as Linux's `strerror` words the raw OS errors. */
  function IoErrorText(e: IoError): string {
    match e
    case InvalidInput => "Invalid argument (os error 22)"
    case NotFound => "No such file or directory (os error 2)"
    case PermissionDenied => "Permission denied (os error 13)"
    case AlreadyExists => "File exists (os error 17)"
    case Other(m) => m
  }

  /** `std::fs::OpenOptions`; every flag starts false. */
  datatype OpenOptions = OpenOptions(
    read: bool, write: bool, append: bool, truncate: bool, create: bool, createNew: bool)

  const NoOptions := OpenOptions(false, false, false, false, false, false)

  /**
   * The validity rules `open` applies before touching the file system: some access mode
   * must be requested (`get_access_mode`), and creating or truncating needs write or
   * append access, while append rules out truncation unless `create_new` is given
   * (`get_creation_mode`).
   */
  function OpenCheck(o: OpenOptions): (r: Option<IoError>)
    ensures r.Some? ==> r.value == InvalidInput
    ensures r.None? <==>
      && (o.read || o.write || o.append)
      && (!o.write && !o.append ==> !o.truncate && !o.create && !o.createNew)
      && (o.append ==> !o.truncate || o.createNew)
  {
    if !o.read && !o.write && !o.append then Some(InvalidInput)
    else if !o.write && !o.append then
      if o.truncate || o.create || o.createNew then Some(InvalidInput) else None
    else if o.append then
      if o.truncate && !o.createNew then Some(InvalidInput) else None
    else None
  }

  /** A file's content and whether its mode has an execute bit. */
  datatype Entry = Entry(content: string, executable: bool)

  type Files = map<string, Entry>

  /**
   * `OpenOptions::open(path)` on a file table: the option check first, then
   * `create_new` on an existing file, a missing file without `create`, and otherwise the
   * (possibly created or truncated) file. A created file starts empty and not executable.
   */
  function Open(files: Files, path: string, o: OpenOptions): (r: Result<Files, IoError>)
    ensures OpenCheck(o).Some? ==> r == Failure(InvalidInput)
    ensures r.Success? ==> path in r.value && r.value.Keys == files.Keys + {path}
    ensures r.Success? ==> forall p :: p in files && p != path ==> r.value[p] == files[p]
    ensures r.Success? && path !in files ==> r.value[path] == Entry([], false)
  {
    if OpenCheck(o).Some? then Failure(OpenCheck(o).value)
    else if path in files then
      if o.createNew then Failure(AlreadyExists)
      else if o.truncate then Success(files[path := files[path].(content := [])])
      else Success(files)
    else if o.create || o.createNew then Success(files[path := Entry([], false)])
    else Failure(NotFound)
  }

  /** `write_all` through a handle that was just opened: at the end in append mode, else over the front. */
  function WriteFromStart(before: string, data: string, append: bool): (r: string)
    ensures append ==> r == before + data
    ensures !append ==> StartsWith(r, data) && |r| == (if |before| <= |data| then |data| else |before|)
  {
    if append then before + data
    else if |before| <= |data| then data
    else data + before[|data|..]
  }

  /** `std::fs::remove_file`. */
  function Remove(files: Files, path: string): (r: Result<Files, IoError>)
    ensures r.Success? <==> path in files
    ensures r.Success? ==> r.value == files - {path}
  {
    if path in files then Success(files - {path}) else Failure(NotFound)
  }

  /** The last position of `c` in `s`. */
  function LastIndexOf(s: string, c: char): (i: nat)
    requires c in s
    ensures i < |s| && s[i] == c && c !in s[i + 1..]
  {
    if s[|s| - 1] == c then |s| - 1
    else
      assert c in s[..|s| - 1] by {
        var k :| 0 <= k < |s| && s[k] == c;
        assert s[..|s| - 1][k] == c;
      }
      var i := LastIndexOf(s[..|s| - 1], c);
      assert s[i + 1..] == s[..|s| - 1][i + 1..] + [s[|s| - 1]];
      i
  }

  /**
   * `Path::file_stem` of a file name: the part before the last '.', unless the only '.'
   * leads the name (".profile") or there is none, when it is the whole name.
   */
  function FileStem(name: string): (r: string)
    ensures StartsWith(name, r)
    ensures '.' !in name ==> r == name
  {
    if '.' !in name then name
    else
      var i := LastIndexOf(name, '.');
      if i == 0 then name else name[..i]
  }

  /**
   * `PathBuf::set_extension(ext)` applied to the last component `name`: nothing happens
   * without a file name (empty or ".."), otherwise the stem followed by "." + ext.
   */
  function SetExtension(name: string, ext: string): string {
    if name == [] || name == ".." then name
    else FileStem(name) + (if ext == [] then [] else "." + ext)
  }

  /** A name without a dot gains exactly ".ext"; the new extension is what `set_extension` was given. */
  lemma SetExtensionAppends(name: string, ext: string)
    requires name != [] && '.' !in name && ext != []
    ensures SetExtension(name, ext) == name + "." + ext
    ensures EndsWith(SetExtension(name, ext), "." + ext)
  {
    assert name != "..";
  }

  /** Setting the same extension twice changes nothing more. */
  lemma SetExtensionIdempotent(name: string, ext: string)
    requires name != [] && name != ".." && ext != [] && '.' !in ext
    ensures SetExtension(SetExtension(name, ext), ext) == SetExtension(name, ext)
  {
    var stem := FileStem(name);
    StemNonEmpty(name);
    StemOfExtended(stem, ext);
    var once := stem + ("." + ext);
    assert SetExtension(name, ext) == once;
    assert |once| > 2;
  }

  lemma StemNonEmpty(name: string)
    requires name != []
    ensures FileStem(name) != []
  {
    if '.' in name {
      var i := LastIndexOf(name, '.');
      if i != 0 { assert |FileStem(name)| == i; }
    }
  }

  lemma StemOfExtended(stem: string, ext: string)
    requires stem != [] && '.' !in ext
    ensures FileStem(stem + ("." + ext)) == stem
  {
    var once := stem + ("." + ext);
    assert once[|stem|] == '.';
    assert once[|stem| + 1..] == ext;
    assert LastIndexOf(once, '.') == |stem|;
    assert once[..|stem|] == stem;
  }

  /** `Path::join` with unix separators: an absolute name replaces the directory. */
  function Join(dir: string, name: string): (r: string)
    ensures EndsWith(r, name)
  {
    if StartsWith(name, "/") || dir == [] then name
    else if EndsWith(dir, "/") then dir + name
    else dir + "/" + name
  }

  /** Joining a relative name puts it right below the directory. */
  lemma JoinBelow(dir: string, name: string)
    requires dir != [] && !StartsWith(name, "/")
    ensures StartsWith(Join(dir, name), dir)
    ensures EndsWith(dir, "/") ==> Join(dir, name) == dir + name
    ensures !EndsWith(dir, "/") ==> Join(dir, name) == dir + "/" + name
  {
    var r := Join(dir, name);
    if EndsWith(dir, "/") {
      assert r[..|dir|] == dir;
    } else {
      assert r == dir + ("/" + name);
      assert r[..|dir|] == dir;
    }
  }

  /** Options that ask for neither write nor append access cannot create a file. */
  lemma CreateWithoutWriteRejected(o: OpenOptions)
    requires o.create && !o.write && !o.append
    ensures OpenCheck(o) == Some(InvalidInput)
    ensures forall files: Files, path :: Open(files, path, o) == Failure(InvalidInput)
  {
  }

  /** With write access added, creating is accepted and a fresh file appears. */
  lemma CreateWithWriteAccepted(o: OpenOptions, files: Files, path: string)
    requires o.create && o.write && !o.append && !o.createNew
    ensures OpenCheck(o).None?
    ensures path !in files ==> Open(files, path, o) == Success(files[path := Entry([], false)])
  {
  }
}
