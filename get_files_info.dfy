/** The `get_files_info` tool: list a directory under the working directory, one line per
    entry with its size and whether it is a directory. */
module FilesInfoTool {
  import opened Util
  import opened Paths
  import opened Types
  import opened FileSystems

  /** Python's `str` of a boolean. */
  function PyBool(b: bool): string
  {
    if b then "True" else "False"
  }

  /** The line describing the entry `item` of `dir`, or the error `os.path.getsize` raises. */
  function EntryLine(d: Disk, cwd: string, dir: string, item: string): (r: Try<string>)
    ensures r.Ok? <==> Exists(d, cwd, Join(dir, item))
  {
    var path := Join(dir, item);
    match Getsize(d, cwd, path)
    case Err(e) => Err(e)
    case Ok(n) => Ok("- " + item + ": file_size=" + NatToString(n) + ", is_dir=" + PyBool(IsDir(d, cwd, path)))
  }

  /** The values of `rs` in order, or the first error among them: how the listing loop,
      which stops at the first exception, turns per-entry outcomes into one outcome. */
  function Collect(rs: seq<Try<string>>): Try<seq<string>>
    decreases |rs|
  {
    if rs == [] then Ok([])
    else
      match Collect(rs[..|rs| - 1])
      case Err(e) => Err(e)
      case Ok(vs) =>
        match rs[|rs| - 1]
        case Err(e) => Err(e)
        case Ok(v) => Ok(vs + [v])
  }

  /** The outcome of each entry of `dir`, in `os.listdir` order. */
  function EntryOutcomes(d: Disk, cwd: string, dir: string, items: seq<string>): (rs: seq<Try<string>>)
    ensures |rs| == |items|
    ensures forall i :: 0 <= i < |items| ==> rs[i] == EntryLine(d, cwd, dir, items[i])
  {
    seq(|items|, i requires 0 <= i < |items| => EntryLine(d, cwd, dir, items[i]))
  }

  /** The listing's lines, or the first entry's error. */
  function EntryLines(d: Disk, cwd: string, dir: string, items: seq<string>): Try<seq<string>>
  {
    Collect(EntryOutcomes(d, cwd, dir, items))
  }

  function OutsideError(directory: string): string
  {
    "Error: Cannot list \"" + directory + "\" as it is outside the permitted working directory"
  }

  function NotDirectoryError(directory: string): string
  {
    "Error: \"" + directory + "\" is not a directory"
  }

  /** `get_files_info(working_directory, directory)` with the process's current directory
      `cwd`, on the filesystem `d`. */
  function FilesInfo(d: Disk, cwd: string, workingDirectory: string, directory: Value): ToolOutcome
  {
    match directory
    case NonStr(t) => Raised(JoinTypeError(t))
    case Str(dir) =>
      var root := Abspath(cwd, workingDirectory);
      var target := Join(root, dir);
      if !StartsWith(target, root) then Returned(OutsideError(dir))
      else if !IsDir(d, cwd, target) then Returned(NotDirectoryError(dir))
      else match Listdir(d, cwd, target)
        case Err(e) => Returned("Error: " + e)
        case Ok(items) =>
          match EntryLines(d, cwd, target, items)
          case Err(e) => Returned("Error: " + e)
          case Ok(lines) => Returned(JoinWith("\n", lines))
  }

  /** The tool itself: it builds the listing line by line and stops at the first entry whose
      size cannot be read. It changes nothing on the filesystem. */
  method GetFilesInfo(fs: FileSystem, cwd: string, workingDirectory: string, directory: Value)
    returns (r: ToolOutcome)
    ensures r == FilesInfo(fs.View(), cwd, workingDirectory, directory)
  {
    if directory.NonStr? {
      return Raised(JoinTypeError(directory.typeName));
    }
    var d := fs.View();
    var dir := directory.s;
    var root := Abspath(cwd, workingDirectory);
    var target := Join(root, dir);
    if !StartsWith(target, root) {
      return Returned(OutsideError(dir));
    }
    if !IsDir(d, cwd, target) {
      return Returned(NotDirectoryError(dir));
    }
    var contents := Listdir(d, cwd, target);
    if contents.Err? {
      return Returned("Error: " + contents.message);
    }
    var items := contents.value;
    ghost var outcomes := EntryOutcomes(d, cwd, target, items);
    var output: seq<string> := [];
    var i := 0;
    while i < |items|
      invariant 0 <= i <= |items|
      invariant Collect(outcomes[..i]) == Ok(output)
    {
      var line := EntryLine(d, cwd, target, items[i]);
      assert outcomes[..i + 1][..i] == outcomes[..i];
      if line.Err? {
        ErrorPersists(outcomes, i + 1);
        return Returned("Error: " + line.message);
      }
      output := output + [line.value];
      i := i + 1;
    }
    assert outcomes[..i] == outcomes;
    return Returned(JoinWith("\n", output));
  }

  /** Once a prefix of the outcomes fails, the whole collection fails with the same error. */
  lemma {:induction false} ErrorPersists(rs: seq<Try<string>>, k: nat)
    requires k <= |rs|
    requires Collect(rs[..k]).Err?
    ensures Collect(rs) == Collect(rs[..k])
    decreases |rs| - k
  {
    if k < |rs| {
      var n := |rs|;
      assert rs[..n - 1][..k] == rs[..k];
      ErrorPersists(rs[..n - 1], k);
      assert rs[..n] == rs;
    } else {
      assert rs[..k] == rs;
    }
  }

  /** The collection succeeds exactly when every outcome does, and then it holds every value in
      order. */
  lemma {:induction false} CollectOk(rs: seq<Try<string>>)
    ensures Collect(rs).Ok? <==> forall i :: 0 <= i < |rs| ==> rs[i].Ok?
    ensures Collect(rs).Ok? ==>
      |Collect(rs).value| == |rs| && forall i :: 0 <= i < |rs| ==> Collect(rs).value[i] == rs[i].value
    decreases |rs|
  {
    if rs != [] {
      var front := rs[..|rs| - 1];
      CollectOk(front);
      assert forall i :: 0 <= i < |front| ==> front[i] == rs[i];
    }
  }

  /** `rs[j]` is the first failing outcome. */
  predicate FirstFailure(rs: seq<Try<string>>, j: int)
  {
    0 <= j < |rs| && rs[j].Err? && forall i :: 0 <= i < j ==> rs[i].Ok?
  }

  /** A failing collection reports the error of the first failing outcome. */
  lemma {:induction false} CollectFirstError(rs: seq<Try<string>>)
    requires Collect(rs).Err?
    ensures exists j :: FirstFailure(rs, j) && rs[j].message == Collect(rs).message
    decreases |rs|
  {
    var front := rs[..|rs| - 1];
    assert forall i :: 0 <= i < |front| ==> front[i] == rs[i];
    if Collect(front).Err? {
      CollectFirstError(front);
      var j :| FirstFailure(front, j) && front[j].message == Collect(front).message;
      assert FirstFailure(rs, j);
    } else {
      CollectOk(front);
      assert FirstFailure(rs, |rs| - 1);
    }
  }

  /** An entry line holds a newline only if the entry's name does. */
  lemma EntryLineSingle(d: Disk, cwd: string, dir: string, item: string)
    requires '\n' !in item
    requires EntryLine(d, cwd, dir, item).Ok?
    ensures '\n' !in EntryLine(d, cwd, dir, item).value
  {
    var path := Join(dir, item);
    var digits := NatToString(Getsize(d, cwd, path).value);
    var flag := PyBool(IsDir(d, cwd, path));
    assert '\n' !in digits by {
      forall i | 0 <= i < |digits| ensures digits[i] != '\n' { assert '0' <= digits[i] <= '9'; }
    }
    LineShapeSingle(item, digits, flag);
  }

  lemma LineShapeSingle(item: string, digits: string, flag: string)
    requires '\n' !in item && '\n' !in digits && (flag == "True" || flag == "False")
    ensures '\n' !in "- " + item + ": file_size=" + digits + ", is_dir=" + flag
  {
    var a, b, c: string := "- ", ": file_size=", ", is_dir=";
    assert '\n' !in a && '\n' !in b && '\n' !in c && '\n' !in flag;
    NotInConcat('\n', a, item);
    NotInConcat('\n', a + item, b);
    NotInConcat('\n', a + item + b, digits);
    NotInConcat('\n', a + item + b + digits, c);
    NotInConcat('\n', a + item + b + digits + c, flag);
  }

  /** The listing can be read back line by line: for entry names without newlines,
      splitting the text on newlines gives exactly the entries' lines, in order. */
  lemma ListingSplitsIntoLines(d: Disk, cwd: string, dir: string, items: seq<string>)
    requires |items| >= 1
    requires forall i :: 0 <= i < |items| ==> '\n' !in items[i]
    requires EntryLines(d, cwd, dir, items).Ok?
    ensures var lines := EntryLines(d, cwd, dir, items).value;
      SplitOn(JoinWith("\n", lines), '\n') == lines && |lines| == |items|
  {
    CollectOk(EntryOutcomes(d, cwd, dir, items));
    var lines := EntryLines(d, cwd, dir, items).value;
    forall i | 0 <= i < |lines| ensures '\n' !in lines[i] {
      EntryLineSingle(d, cwd, dir, items[i]);
    }
    JoinSplit(lines, '\n');
  }

  /** An absolute directory argument that does not start with the root is refused; any other
      argument, `..` included, reaches the directory checks. */
  lemma ListGuard(d: Disk, cwd: string, wd: string, dir: string)
    ensures IsAbs(dir) && !StartsWith(dir, Abspath(cwd, wd)) ==>
      FilesInfo(d, cwd, wd, Str(dir)) == Returned(OutsideError(dir))
    ensures (!IsAbs(dir) || StartsWith(dir, Abspath(cwd, wd))) && !IsDir(d, cwd, Join(Abspath(cwd, wd), dir)) ==>
      FilesInfo(d, cwd, wd, Str(dir)) == Returned(NotDirectoryError(dir))
  {
    JoinGuardIff(Abspath(cwd, wd), dir);
  }

  /** A listable directory whose entries can all be sized is described one entry per line;
      an empty directory gives the empty string. */
  lemma ListingDescribesEntries(d: Disk, cwd: string, wd: string, dir: string)
    requires !IsAbs(dir) || StartsWith(dir, Abspath(cwd, wd))
    requires var target := Join(Abspath(cwd, wd), dir);
      Listdir(d, cwd, target).Ok? &&
      forall i :: 0 <= i < |Listdir(d, cwd, target).value| ==>
        Exists(d, cwd, Join(target, Listdir(d, cwd, target).value[i]))
    ensures var target := Join(Abspath(cwd, wd), dir);
      var items := Listdir(d, cwd, target).value;
      exists lines: seq<string> ::
        FilesInfo(d, cwd, wd, Str(dir)) == Returned(JoinWith("\n", lines)) &&
        |lines| == |items| &&
        forall i :: 0 <= i < |items| ==> lines[i] == EntryLine(d, cwd, target, items[i]).value
  {
    var target := Join(Abspath(cwd, wd), dir);
    JoinGuardIff(Abspath(cwd, wd), dir);
    var items := Listdir(d, cwd, target).value;
    CollectOk(EntryOutcomes(d, cwd, target, items));
  }

  /** When some entry cannot be sized, the tool reports the error of the first such entry. */
  lemma ListingReportsFirstFailure(d: Disk, cwd: string, wd: string, dir: string)
    requires !IsAbs(dir) || StartsWith(dir, Abspath(cwd, wd))
    requires var target := Join(Abspath(cwd, wd), dir);
      Listdir(d, cwd, target).Ok? && EntryLines(d, cwd, target, Listdir(d, cwd, target).value).Err?
    ensures var target := Join(Abspath(cwd, wd), dir);
      var outcomes := EntryOutcomes(d, cwd, target, Listdir(d, cwd, target).value);
      exists j :: FirstFailure(outcomes, j) &&
        FilesInfo(d, cwd, wd, Str(dir)) == Returned("Error: " + outcomes[j].message)
  {
    var target := Join(Abspath(cwd, wd), dir);
    JoinGuardIff(Abspath(cwd, wd), dir);
    CollectFirstError(EntryOutcomes(d, cwd, target, Listdir(d, cwd, target).value));
  }

  /** When `os.listdir` fails on a directory that passed the checks, the tool reports
      `Error: ` and the system's error, with no listing. */
  lemma ListingFailureReported(d: Disk, cwd: string, wd: string, dir: string)
    requires !IsAbs(dir) || StartsWith(dir, Abspath(cwd, wd))
    requires var target := Join(Abspath(cwd, wd), dir);
      IsDir(d, cwd, target) && Listdir(d, cwd, target).Err?
    ensures var target := Join(Abspath(cwd, wd), dir);
      FilesInfo(d, cwd, wd, Str(dir)) == Returned("Error: " + Listdir(d, cwd, target).message)
  {
    JoinGuardIff(Abspath(cwd, wd), dir);
  }

  /** A directory argument that is not a string makes `os.path.join` raise. */
  lemma NonStringDirectoryRaises(d: Disk, cwd: string, wd: string, t: string)
    ensures FilesInfo(d, cwd, wd, NonStr(t)) == Raised(JoinTypeError(t))
  {
  }
}
