/** The `get_file_content` tool: read a regular file under the working directory as text
    and cap what is returned at `maxChars` characters. */
module FileContentTool {
  import opened Util
  import opened Paths
  import opened Types
  import opened FileSystems

  /** What follows a capped file's first `maxChars` characters. The count in it is the
      literal 10000, whatever the cap is. */
  function TruncationMarker(filePath: string): string
  {
    " [...File \"" + filePath + "\" truncated at 10000 characters]"
  }

  /** The text the tool returns for a file read as `text`. */
  function Truncate(text: string, filePath: string, maxChars: nat): (r: string)
    ensures |text| <= maxChars ==> r == text
    ensures |text| > maxChars ==> IsPrefix(text[..maxChars], r) && r[maxChars..] == TruncationMarker(filePath)
    ensures |r| <= maxChars + |TruncationMarker(filePath)|
  {
    if |text| > maxChars then text[..maxChars] + TruncationMarker(filePath) else text
  }

  function OutsideError(filePath: string): string
  {
    "Error: Cannot read \"" + filePath + "\" as it is outside the permitted working directory"
  }

  function NotRegularError(filePath: string): string
  {
    "Error: File not found or is not a regular file: \"" + filePath + "\""
  }

  /** `get_file_content(working_directory, file_path)` with the process's current directory
      `cwd`, on the filesystem `d`. */
  function GetFileContent(d: Disk, cwd: string, workingDirectory: string, filePath: Value, maxChars: nat): ToolOutcome
  {
    match filePath
    case NonStr(t) => Raised(JoinTypeError(t))
    case Str(fp) =>
      var root := Abspath(cwd, workingDirectory);
      var target := Join(root, fp);
      if !StartsWith(target, root) then Returned(OutsideError(fp))
      else if !IsFile(d, cwd, target) then Returned(NotRegularError(fp))
      else match ReadText(d, cwd, target)
        case Err(e) => Returned("Error: " + e)
        case Ok(text) => Returned(Truncate(text, fp, maxChars))
  }

  /** An absolute path that does not start with the root is refused. */
  lemma ReadRefusedOutside(d: Disk, cwd: string, wd: string, fp: string, maxChars: nat)
    requires IsAbs(fp) && !StartsWith(fp, Abspath(cwd, wd))
    ensures GetFileContent(d, cwd, wd, Str(fp), maxChars) == Returned(OutsideError(fp))
  {
    JoinGuardIff(Abspath(cwd, wd), fp);
  }

  /** Every other path gets past the check, `..` included: a readable text file there is
      returned in full, after newline translation, when it has at most `maxChars`
      characters, and otherwise as its first `maxChars` characters and the marker. */
  lemma ReadReturnsText(d: Disk, cwd: string, wd: string, fp: string, maxChars: nat)
    requires !IsAbs(fp) || StartsWith(fp, Abspath(cwd, wd))
    requires ReadText(d, cwd, Join(Abspath(cwd, wd), fp)).Ok?
    ensures var text := ReadText(d, cwd, Join(Abspath(cwd, wd), fp)).value;
      var r := GetFileContent(d, cwd, wd, Str(fp), maxChars);
      r.Returned? &&
      (|text| <= maxChars ==> r.text == text) &&
      (|text| > maxChars ==> r.text == text[..maxChars] + TruncationMarker(fp))
  {
    JoinGuardIff(Abspath(cwd, wd), fp);
  }

  /** A path that is not a regular file is reported as such; a file that cannot be opened or
      decoded is reported with the exception's text. */
  lemma ReadFaultsReported(d: Disk, cwd: string, wd: string, fp: string, maxChars: nat)
    requires !IsAbs(fp) || StartsWith(fp, Abspath(cwd, wd))
    ensures var target := Join(Abspath(cwd, wd), fp);
      var r := GetFileContent(d, cwd, wd, Str(fp), maxChars);
      (!IsFile(d, cwd, target) ==> r == Returned(NotRegularError(fp))) &&
      (IsFile(d, cwd, target) && ReadText(d, cwd, target).Err? ==>
        r == Returned("Error: " + ReadText(d, cwd, target).message))
  {
    JoinGuardIff(Abspath(cwd, wd), fp);
  }

  /** Where `../secret.txt` goes from the root `/home/u/calc`. */
  lemma SecretPath(cwd: string)
    ensures Abspath(cwd, "/home/u/calc") == "/home/u/calc"
    ensures StartsWith(Join("/home/u/calc", "../secret.txt"), "/home/u/calc")
    ensures Resolve(cwd, Join("/home/u/calc", "../secret.txt")) == "/home/u/secret.txt"
    ensures !Within("/home/u/calc", "/home/u/secret.txt")
  {
    var rs, names := ["home", "u", "calc"], ["secret.txt"];
    CalcRoot();
    SecretNames();
    ComponentsOfPath(rs);
    ParentTraversalEscapes(rs, names);
    SecretTarget(cwd);
  }

  lemma CalcRoot()
    ensures AllNames(["home", "u", "calc"]) && PathOf(["home", "u", "calc"]) == "/home/u/calc"
  {
    assert ["u", "calc"][1..] == ["calc"];
    assert ["home", "u", "calc"][1..] == ["u", "calc"];
  }

  lemma SecretNames()
    ensures AllNames(["secret.txt"]) && "../" + JoinWith("/", ["secret.txt"]) == "../secret.txt"
    ensures ["home", "u", "calc"][..2] + ["secret.txt"] == ["home", "u", "secret.txt"]
    ensures PathOf(["home", "u", "secret.txt"]) == "/home/u/secret.txt"
  {
    assert ["u", "secret.txt"][1..] == ["secret.txt"];
    assert ["home", "u", "secret.txt"][1..] == ["u", "secret.txt"];
  }

  /** The joined argument is absolute, so resolving it only normalises it. */
  lemma SecretTarget(cwd: string)
    ensures Resolve(cwd, Join("/home/u/calc", "../secret.txt")) == Normpath(Join("/home/u/calc", "../secret.txt"))
  {
    var j := Join("/home/u/calc", "../secret.txt");
    assert j[0] == '/';
  }

  /** The escape the check lets through: with the root `/home/u/calc`, the argument
      `../secret.txt` reads `/home/u/secret.txt`, which is outside the root. */
  lemma ReadEscapesRoot(d: Disk, cwd: string, maxChars: nat)
    requires "/home/u/secret.txt" in d.files && "/home/u/secret.txt" !in d.dirs
    requires "/home/u/secret.txt" !in d.denied
    requires d.files["/home/u/secret.txt"] == TextFile("pw")
    requires maxChars >= 2
    ensures GetFileContent(d, cwd, "/home/u/calc", Str("../secret.txt"), maxChars) == Returned("pw")
    ensures !Within("/home/u/calc", "/home/u/secret.txt")
  {
    SecretPath(cwd);
    UniversalNewlinesNoCR("pw");
  }
}
