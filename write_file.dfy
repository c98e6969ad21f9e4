/** The `write_file` tool: create or overwrite a file under the working directory. */
module WriteFileTool {
  import opened Util
  import opened Paths
  import opened Types
  import opened FileSystems
  import FileContentTool

  /** The refusal of a path outside the root. It says "read", as the tool's text does. */
  function OutsideError(filePath: string): string
  {
    "Error: Cannot read \"" + filePath + "\" as it is outside the permitted working directory"
  }

  function SuccessMessage(filePath: string, count: nat): string
  {
    "Successfully wrote to \"" + filePath + "\" (" + NatToString(count) + " characters written)"
  }

  /** The `TypeError` text of writing a non-string to a text file. The text stream names
      `None` itself, and the type of any other value. */
  function WriteTypeError(typeName: string): string
  {
    "write() argument must be str, not " + (if typeName == "NoneType" then "None" else typeName)
  }

  /** `write_file(working_directory, file_path, content)` with the process's current
      directory `cwd`: what it returns and the filesystem after it. Opening for writing
      creates or empties the file before the content is written, so a content argument that
      is not a string leaves the file empty. */
  function WriteEffect(d: Disk, cwd: string, workingDirectory: string, filePath: Value, content: Value): (ToolOutcome, Disk)
  {
    match filePath
    case NonStr(t) => (Raised(JoinTypeError(t)), d)
    case Str(fp) =>
      var root := Abspath(cwd, workingDirectory);
      var target := Join(root, fp);
      if !StartsWith(target, root) then (Returned(OutsideError(fp)), d)
      else match OpenForWriteError(d, cwd, target)
        case Some(e) => (Returned("Error: " + e), d)
        case None =>
          var q := Resolve(cwd, target);
          match content
          case NonStr(t) => (Returned("Error: " + WriteTypeError(t)), Store(d, q, TextFile("")))
          case Str(c) => (Returned(SuccessMessage(fp, |c|)), Store(d, q, TextFile(c)))
  }

  /** The tool itself: open (creating or emptying the file), then write. */
  method WriteFile(fs: FileSystem, cwd: string, workingDirectory: string, filePath: Value, content: Value)
    returns (r: ToolOutcome)
    modifies fs
    ensures (r, fs.View()) == WriteEffect(old(fs.View()), cwd, workingDirectory, filePath, content)
  {
    if filePath.NonStr? {
      return Raised(JoinTypeError(filePath.typeName));
    }
    var fp := filePath.s;
    var root := Abspath(cwd, workingDirectory);
    var target := Join(root, fp);
    if !StartsWith(target, root) {
      return Returned(OutsideError(fp));
    }
    var err := OpenForWriteError(fs.View(), cwd, target);
    if err.Some? {
      return Returned("Error: " + err.value);
    }
    ghost var d := fs.View();
    var q := Resolve(cwd, target);
    var parent := Parent(q);
    assert parent in d.dirs;
    if q !in fs.files {
      fs.dirs := fs.dirs[parent := fs.dirs[parent].(entries := fs.dirs[parent].entries + [BaseName(q)])];
    }
    fs.files := fs.files[q := TextFile("")];
    assert fs.View() == Store(d, q, TextFile(""));
    if content.NonStr? {
      return Returned("Error: " + WriteTypeError(content.typeName));
    }
    fs.files := fs.files[q := TextFile(content.s)];
    StoreOverwrite(d, q, TextFile(""), TextFile(content.s));
    return Returned(SuccessMessage(fp, |content.s|));
  }

  /** An absolute path that does not start with the root is refused and nothing is written. */
  lemma WriteRefusedOutside(d: Disk, cwd: string, wd: string, fp: string, content: Value)
    requires IsAbs(fp) && !StartsWith(fp, Abspath(cwd, wd))
    ensures WriteEffect(d, cwd, wd, Str(fp), content) == (Returned(OutsideError(fp)), d)
  {
    JoinGuardIff(Abspath(cwd, wd), fp);
  }

  /** A write the operating system refuses reports its error and changes nothing. */
  lemma WriteFailureChangesNothing(d: Disk, cwd: string, wd: string, fp: string, content: Value)
    requires !IsAbs(fp) || StartsWith(fp, Abspath(cwd, wd))
    requires OpenForWriteError(d, cwd, Join(Abspath(cwd, wd), fp)).Some?
    ensures WriteEffect(d, cwd, wd, Str(fp), content) ==
      (Returned("Error: " + OpenForWriteError(d, cwd, Join(Abspath(cwd, wd), fp)).value), d)
  {
    JoinGuardIff(Abspath(cwd, wd), fp);
  }

  /** A successful write reports the number of characters and leaves the file holding
      exactly the content, every other file as it was, and the same directories. */
  lemma WriteSucceeds(d: Disk, cwd: string, wd: string, fp: string, c: string)
    requires !IsAbs(fp) || StartsWith(fp, Abspath(cwd, wd))
    requires OpenForWriteError(d, cwd, Join(Abspath(cwd, wd), fp)).None?
    ensures var q := Resolve(cwd, Join(Abspath(cwd, wd), fp));
      var (r, e) := WriteEffect(d, cwd, wd, Str(fp), Str(c));
      r == Returned(SuccessMessage(fp, |c|)) &&
      e.files == d.files[q := TextFile(c)] &&
      e.dirs.Keys == d.dirs.Keys && e.denied == d.denied
  {
    JoinGuardIff(Abspath(cwd, wd), fp);
    StoreFrame(d, Resolve(cwd, Join(Abspath(cwd, wd), fp)), TextFile(c));
  }

  /** A content argument that is not a string still empties or creates the file, and the
      error is reported; for a missing content (`None`) it names `None`. */
  lemma WriteNonStringEmpties(d: Disk, cwd: string, wd: string, fp: string, t: string)
    requires !IsAbs(fp) || StartsWith(fp, Abspath(cwd, wd))
    requires OpenForWriteError(d, cwd, Join(Abspath(cwd, wd), fp)).None?
    ensures var q := Resolve(cwd, Join(Abspath(cwd, wd), fp));
      var (r, e) := WriteEffect(d, cwd, wd, Str(fp), NonStr(t));
      r == Returned("Error: " + WriteTypeError(t)) && e.files == d.files[q := TextFile("")]
    ensures t == "NoneType" ==> WriteTypeError(t) == "write() argument must be str, not None"
  {
    JoinGuardIff(Abspath(cwd, wd), fp);
    StoreFrame(d, Resolve(cwd, Join(Abspath(cwd, wd), fp)), TextFile(""));
    NoneNamed();
  }

  lemma NoneNamed()
    ensures WriteTypeError("NoneType") == "write() argument must be str, not None"
  {
  }

  /** Every call keeps the filesystem consistent. */
  lemma WritePreservesValid(d: Disk, cwd: string, wd: string, filePath: Value, content: Value)
    requires Valid(d)
    ensures Valid(WriteEffect(d, cwd, wd, filePath, content).1)
  {
    if filePath.Str? {
      var root := Abspath(cwd, wd);
      var target := Join(root, filePath.s);
      if StartsWith(target, root) && OpenForWriteError(d, cwd, target).None? {
        var q := Resolve(cwd, target);
        StorePreservesValid(d, q, TextFile(if content.Str? then content.s else ""));
      }
    }
  }

  /** Writing and then reading the same path gives the content back when it has no carriage
      return and fits the cap; a longer content reads back capped, with the marker. */
  lemma WriteThenRead(d: Disk, cwd: string, wd: string, fp: string, c: string, maxChars: nat)
    requires !IsAbs(fp) || StartsWith(fp, Abspath(cwd, wd))
    requires OpenForWriteError(d, cwd, Join(Abspath(cwd, wd), fp)).None?
    requires '\r' !in c
    ensures var e := WriteEffect(d, cwd, wd, Str(fp), Str(c)).1;
      FileContentTool.GetFileContent(e, cwd, wd, Str(fp), maxChars) ==
        Returned(if |c| <= maxChars then c else c[..maxChars] + FileContentTool.TruncationMarker(fp))
  {
    WriteSucceeds(d, cwd, wd, fp, c);
    UniversalNewlinesNoCR(c);
    var e := WriteEffect(d, cwd, wd, Str(fp), Str(c)).1;
    FileContentTool.ReadReturnsText(e, cwd, wd, fp, maxChars);
  }

  /** The round trip needs the condition on carriage returns: `a\rb` reads back as `a\nb`. */
  lemma WriteThenReadCarriageReturn(d: Disk, cwd: string, wd: string, fp: string, maxChars: nat)
    requires !IsAbs(fp) || StartsWith(fp, Abspath(cwd, wd))
    requires OpenForWriteError(d, cwd, Join(Abspath(cwd, wd), fp)).None?
    requires maxChars >= 3
    ensures var e := WriteEffect(d, cwd, wd, Str(fp), Str("a\rb")).1;
      FileContentTool.GetFileContent(e, cwd, wd, Str(fp), maxChars) == Returned("a\nb")
  {
    WriteSucceeds(d, cwd, wd, fp, "a\rb");
    CarriageReturnTranslated();
    var e := WriteEffect(d, cwd, wd, Str(fp), Str("a\rb")).1;
    FileContentTool.ReadReturnsText(e, cwd, wd, fp, maxChars);
  }
}
