/** The part of the operating system the tools touch: regular files, directories and the
    few `os` and `open` calls made on them. Paths are resolved lexically against the
    process's current directory, so every file and directory is known by one normalised
    absolute path. */
module FileSystems {
  import opened Util
  import opened Paths

  /** What a regular file holds: decodable text, or bytes that reading as text rejects with
      the decoder's message. */
  datatype FileData = TextFile(text: string) | BinaryFile(byteSize: nat, decodeError: string)

  /** A directory: its names in `os.listdir` order and the size `os.path.getsize` reports. */
  datatype DirInfo = DirInfo(entries: seq<string>, byteSize: nat)

  /** A snapshot of the filesystem. `denied` holds the paths the process may not open. */
  datatype Disk = Disk(files: map<string, FileData>, dirs: map<string, DirInfo>, denied: set<string>)

  /** The path the operating system opens for `p`: `os.path.abspath(p)`. */
  function Resolve(cwd: string, p: string): string
  {
    Abspath(cwd, p)
  }

  /** `os.path.isfile(p)`. */
  predicate IsFile(d: Disk, cwd: string, p: string)
  {
    Resolve(cwd, p) in d.files
  }

  /** `os.path.isdir(p)`. */
  predicate IsDir(d: Disk, cwd: string, p: string)
  {
    Resolve(cwd, p) in d.dirs
  }

  /** `os.path.exists(p)`. */
  predicate Exists(d: Disk, cwd: string, p: string)
  {
    IsFile(d, cwd, p) || IsDir(d, cwd, p)
  }

  /** The directory holding the resolved path `r`, and `r`'s last component. */
  function Parent(r: string): string
  {
    var cs := Components(r);
    if cs == [] then "/" else PathOf(cs[..|cs| - 1])
  }

  function BaseName(r: string): string
  {
    var cs := Components(r);
    if cs == [] then "" else cs[|cs| - 1]
  }

  /** The text of an `OSError`: `[Errno n] reason: 'path'`. */
  function OsError(errno: nat, reason: string, path: string): string
  {
    "[Errno " + NatToString(errno) + "] " + reason + ": '" + path + "'"
  }

  const ENOENT: nat := 2
  const EACCES: nat := 13
  const ENOTDIR: nat := 20
  const EISDIR: nat := 21

  function NotFound(p: string): string { OsError(ENOENT, "No such file or directory", p) }
  function AccessDenied(p: string): string { OsError(EACCES, "Permission denied", p) }
  function NotADirectory(p: string): string { OsError(ENOTDIR, "Not a directory", p) }
  function IsADirectory(p: string): string { OsError(EISDIR, "Is a directory", p) }

  /** The number of bytes UTF-8 uses for `c`. */
  function Utf8Width(c: char): nat
  {
    if c as int < 0x80 then 1 else if c as int < 0x800 then 2 else if c as int < 0x10000 then 3 else 4
  }

  /** The size in bytes of `s` encoded as UTF-8: what `os.path.getsize` reports for a file
      written with that text. */
  function Utf8Length(s: string): (n: nat)
    ensures |s| <= n <= 4 * |s|
  {
    if s == [] then 0 else Utf8Width(s[0]) + Utf8Length(s[1..])
  }

  /** `os.path.getsize(p)`. */
  function Getsize(d: Disk, cwd: string, p: string): (r: Try<nat>)
    ensures r.Ok? <==> Exists(d, cwd, p)
  {
    var q := Resolve(cwd, p);
    if q in d.files then
      match d.files[q]
      case TextFile(t) => Ok(Utf8Length(t))
      case BinaryFile(n, _) => Ok(n)
    else if q in d.dirs then Ok(d.dirs[q].byteSize)
    else Err(NotFound(p))
  }

  /** `os.listdir(p)`. */
  function Listdir(d: Disk, cwd: string, p: string): (r: Try<seq<string>>)
    ensures r.Ok? <==> IsDir(d, cwd, p) && Resolve(cwd, p) !in d.denied
    ensures r.Ok? ==> r.value == d.dirs[Resolve(cwd, p)].entries
  {
    var q := Resolve(cwd, p);
    if q in d.denied then Err(AccessDenied(p))
    else if q in d.dirs then Ok(d.dirs[q].entries)
    else if q in d.files then Err(NotADirectory(p))
    else Err(NotFound(p))
  }

  /** Text-mode reading turns every `\r\n` and every lone `\r` into `\n`. */
  function UniversalNewlines(s: string): (r: string)
    ensures '\r' !in r
    ensures |r| <= |s|
    decreases |s|
  {
    if s == [] then []
    else if s[0] == '\r' then "\n" + UniversalNewlines(if |s| > 1 && s[1] == '\n' then s[2..] else s[1..])
    else [s[0]] + UniversalNewlines(s[1..])
  }

  /** Text without a carriage return reads back unchanged. */
  lemma {:induction false} UniversalNewlinesNoCR(s: string)
    requires '\r' !in s
    ensures UniversalNewlines(s) == s
    decreases |s|
  {
    if s != [] {
      assert s[0] != '\r';
      assert '\r' !in s[1..] by {
        forall i | 0 <= i < |s[1..]| ensures s[1..][i] != '\r' { assert s[1..][i] == s[i + 1]; }
      }
      UniversalNewlinesNoCR(s[1..]);
      assert [s[0]] + s[1..] == s;
    }
  }

  /** A lone carriage return is read back as a newline. */
  lemma CarriageReturnTranslated()
    ensures UniversalNewlines("a\rb") == "a\nb"
  {
    assert "a\rb"[1..] == "\rb";
    assert "\rb"[1..] == "b";
    assert UniversalNewlines("b") == "b" by { assert "b"[1..] == []; }
  }

  /** `open(p, "r").read()`. */
  function ReadText(d: Disk, cwd: string, p: string): (r: Try<string>)
    ensures r.Ok? <==> IsFile(d, cwd, p) && !IsDir(d, cwd, p) && Resolve(cwd, p) !in d.denied && d.files[Resolve(cwd, p)].TextFile?
    ensures r.Ok? ==> r.value == UniversalNewlines(d.files[Resolve(cwd, p)].text)
  {
    var q := Resolve(cwd, p);
    if q in d.dirs then Err(IsADirectory(p))
    else if q !in d.files then Err(NotFound(p))
    else if q in d.denied then Err(AccessDenied(p))
    else match d.files[q]
      case TextFile(t) => Ok(UniversalNewlines(t))
      case BinaryFile(_, e) => Err(e)
  }

  /** The error `open(p, "w")` raises, checked in the operating system's order: the parent
      must be a directory, the path must not be one, and the path must be writable. */
  function OpenForWriteError(d: Disk, cwd: string, p: string): (r: Option<string>)
    ensures r.None? <==>
      Parent(Resolve(cwd, p)) !in d.files && Parent(Resolve(cwd, p)) in d.dirs && !IsDir(d, cwd, p) && Resolve(cwd, p) !in d.denied
  {
    var q := Resolve(cwd, p);
    var parent := Parent(q);
    if parent in d.files then Some(NotADirectory(p))
    else if parent !in d.dirs then Some(NotFound(p))
    else if q in d.dirs then Some(IsADirectory(p))
    else if q in d.denied then Some(AccessDenied(p))
    else None
  }

  /** The disk after the resolved path `q` holds `data`: a new file is also listed in its
      parent directory. */
  function Store(d: Disk, q: string, data: FileData): Disk
    requires Parent(q) in d.dirs
  {
    var dirs :=
      if q in d.files then d.dirs
      else d.dirs[Parent(q) := d.dirs[Parent(q)].(entries := d.dirs[Parent(q)].entries + [BaseName(q)])];
    d.(files := d.files[q := data], dirs := dirs)
  }

  /** A consistent filesystem: nothing is both a file and a directory, and every file is
      listed in its parent directory. */
  predicate Valid(d: Disk)
  {
    (forall q :: q in d.files ==> q !in d.dirs) &&
    (forall q :: q in d.files ==> Parent(q) in d.dirs && BaseName(q) in d.dirs[Parent(q)].entries)
  }

  /** Storing at `q` changes the file at `q` and no other, keeps the set of directories,
      and only ever extends a directory listing. */
  lemma StoreFrame(d: Disk, q: string, data: FileData)
    requires Parent(q) in d.dirs
    ensures Store(d, q, data).files == d.files[q := data]
    ensures Store(d, q, data).dirs.Keys == d.dirs.Keys
    ensures Store(d, q, data).denied == d.denied
    ensures forall p :: p in d.dirs ==> IsPrefix(d.dirs[p].entries, Store(d, q, data).dirs[p].entries)
  {
    var e := Store(d, q, data);
    forall p | p in d.dirs ensures IsPrefix(d.dirs[p].entries, e.dirs[p].entries) {
      assert e.dirs[p].entries[..|d.dirs[p].entries|] == d.dirs[p].entries;
    }
  }

  /** Writing over a file just stored at `q` is the same as storing the final data at once. */
  lemma StoreOverwrite(d: Disk, q: string, first: FileData, data: FileData)
    requires Parent(q) in d.dirs
    ensures Store(d, q, first).(files := Store(d, q, first).files[q := data]) == Store(d, q, data)
  {
  }

  /** A new file is listed in its parent directory. */
  lemma StoreLists(d: Disk, q: string, data: FileData)
    requires Parent(q) in d.dirs && q !in d.files
    ensures BaseName(q) in Store(d, q, data).dirs[Parent(q)].entries
  {
    var es := Store(d, q, data).dirs[Parent(q)].entries;
    assert es[|es| - 1] == BaseName(q);
  }

  /** Storing a file at a path that is not a directory, under an existing directory, keeps
      the filesystem consistent. */
  lemma StorePreservesValid(d: Disk, q: string, data: FileData)
    requires Valid(d) && Parent(q) in d.dirs && q !in d.dirs
    ensures Valid(Store(d, q, data))
  {
    var e := Store(d, q, data);
    StoreFrame(d, q, data);
    if q !in d.files { StoreLists(d, q, data); }
    forall p | p in e.files ensures Parent(p) in e.dirs && BaseName(p) in e.dirs[Parent(p)].entries {
      if p != q || q in d.files {
        ListedStaysListed(d.dirs[Parent(p)].entries, e.dirs[Parent(p)].entries, BaseName(p));
      }
    }
  }

  lemma ListedStaysListed(xs: seq<string>, ys: seq<string>, x: string)
    requires IsPrefix(xs, ys) && x in xs
    ensures x in ys
  {
    var i :| 0 <= i < |xs| && xs[i] == x;
    assert ys[i] == x;
  }

  /** The mutable filesystem the tools act on; `View` is its current snapshot. */
  class FileSystem {
    var files: map<string, FileData>
    var dirs: map<string, DirInfo>
    var denied: set<string>

    constructor (d: Disk)
      ensures View() == d
    {
      files := d.files;
      dirs := d.dirs;
      denied := d.denied;
    }

    function View(): Disk
      reads this
    {
      Disk(files, dirs, denied)
    }

    /** The filesystem becomes `d`, as a child process may leave it. */
    method Replace(d: Disk)
      modifies this
      ensures View() == d
    {
      files := d.files;
      dirs := d.dirs;
      denied := d.denied;
    }
  }
}
