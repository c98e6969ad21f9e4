/** The `run_python_file` tool: run a Python file under the working directory in a child
    interpreter and report what it printed. The child process is not modelled: how it ends,
    and the filesystem it leaves, are a parameter of the disk it starts on and the target. */
module RunPythonTool {
  import opened Util
  import opened Paths
  import opened Types
  import opened FileSystems

  /** How the child `python <target>` ends, as `subprocess.run` sees it. */
  datatype ProcessOutcome =
    | Exited(status: nat, stdout: string, stderr: string)
    | Killed(signal: string)      // ended by a signal; `signal` is how Python prints it
    | TimedOut                    // still running after the timeout
    | LaunchFailed(message: string)  // the interpreter could not be started

  /** A run of the child: how it ended and the filesystem it left behind. The script runs
      with the agent's rights, so it may read, create or change any file. */
  datatype ChildRun = ChildRun(outcome: ProcessOutcome, after: Disk)

  /** A child that leaves a consistent filesystem behind whenever it starts on one, as the
      operating system guarantees. */
  ghost predicate ChildKeepsValid(run: (Disk, string) -> ChildRun)
  {
    forall d: Disk, t: string :: Valid(d) ==> Valid(run(d, t).after)
  }

  /** How Python prints the argument list `["python", target]`. */
  function CommandText(target: string): string
  {
    "['python', '" + target + "']"
  }

  /** `file_path[-3:]`: the last three characters, or the whole string when it is shorter. */
  function LastThree(s: string): string
  {
    if |s| >= 3 then s[|s| - 3..] else s
  }

  /** The text returned for a child that exited with status 0. */
  function FormatOutput(stdout: string, stderr: string): string
  {
    var blocks := (if stdout != "" then ["STDOUT:\n" + stdout] else []) +
                  (if stderr != "" then ["STDERR:\n" + stderr] else []);
    if blocks == [] then "No output produced." else JoinWith("\n", blocks)
  }

  function OutsideError(filePath: string): string
  {
    "Error: Cannot execute \"" + filePath + "\" as it is outside the permitted working directory"
  }

  function NotFoundError(filePath: string): string
  {
    "Error: File \"" + filePath + "\" not found."
  }

  function NotPythonError(filePath: string): string
  {
    "Error: \"" + filePath + "\" is not a Python file."
  }

  /** The normalised target of a path argument. */
  function RunTarget(cwd: string, workingDirectory: string, filePath: string): string
  {
    Abspath(cwd, Join(Abspath(cwd, workingDirectory), filePath))
  }

  /** `run_python_file(working_directory, file_path)` with the process's current directory
      `cwd`, on the filesystem `d`, where `run(d, target)` is how the child ends and what it
      leaves: what the tool returns or raises, and the filesystem after it. A non-zero exit
      is caught and reported; a timeout or a failed launch raises. */
  function RunPythonFile(d: Disk, cwd: string, workingDirectory: string, filePath: Value,
                         run: (Disk, string) -> ChildRun): (ToolOutcome, Disk)
  {
    match filePath
    case NonStr(t) => (Raised(JoinTypeError(t)), d)
    case Str(fp) =>
      var root := Abspath(cwd, workingDirectory);
      var target := RunTarget(cwd, workingDirectory, fp);
      if !StartsWith(target, root) then (Returned(OutsideError(fp)), d)
      else if !Exists(d, cwd, target) then (Returned(NotFoundError(fp)), d)
      else if LastThree(fp) != ".py" then (Returned(NotPythonError(fp)), d)
      else ChildResult(d, target, run)
  }

  /** What running `target` on `d` gives once the checks have passed. A child that could not
      be launched changes nothing; one that ran, however it ended, leaves what it left. */
  function ChildResult(d: Disk, target: string, run: (Disk, string) -> ChildRun): (ToolOutcome, Disk)
  {
    var child := run(d, target);
    var e := child.after;
    match child.outcome
    case TimedOut =>
      (Raised("Command '" + CommandText(target) + "' timed out after 30 seconds"), e)
    case LaunchFailed(m) => (Raised(m), d)
    case Killed(signal) =>
      (Returned("Error: executing Python file: Command '" + CommandText(target) + "' died with " + signal + "."), e)
    case Exited(status, out, err) =>
      if status != 0 then
        (Returned("Error: executing Python file: Command '" + CommandText(target) +
                  "' returned non-zero exit status " + NatToString(status) + "."), e)
      else (Returned(FormatOutput(out, err)), e)
  }

  /** `file_path[-3:] == ".py"` is exactly `file_path.endswith(".py")`. */
  lemma SuffixCheckIsEndsWith(s: string)
    ensures LastThree(s) == ".py" <==> |s| >= 3 && s[|s| - 3..] == ".py"
  {
  }

  /** The streams are labelled and kept in order: the text is "No output produced." exactly
      when both are empty; otherwise standard output comes first, under its label, and
      standard error last, under its own. */
  lemma FormatOutputLabels(out: string, err: string)
    ensures FormatOutput(out, err) == "No output produced." <==> out == "" && err == ""
    ensures out != "" ==> StartsWith(FormatOutput(out, err), "STDOUT:\n" + out)
    ensures err != "" ==> EndsWith(FormatOutput(out, err), "STDERR:\n" + err)
    ensures out != "" && err != "" ==> FormatOutput(out, err) == "STDOUT:\n" + out + "\nSTDERR:\n" + err
    ensures out != "" && err == "" ==> FormatOutput(out, err) == "STDOUT:\n" + out
    ensures out == "" && err != "" ==> FormatOutput(out, err) == "STDERR:\n" + err
  {
    var a, b := "STDOUT:\n" + out, "STDERR:\n" + err;
    var r := FormatOutput(out, err);
    if out != "" && err != "" {
      assert [a] + [b] == [a, b] && [a, b][1..] == [b];
      assert JoinWith("\n", [a, b]) == a + "\n" + b;
      assert r == a + "\n" + b;
      assert r[..|a|] == a;
      assert r[|r| - |b|..] == b;
    } else if out != "" {
      assert [a] + [] == [a];
      assert r == a;
    } else if err != "" {
      assert [] + [b] == [b];
      assert r == b;
    }
    if out != "" || err != "" {
      assert r[0] == 'S';
    }
  }

  predicate EndsWith(s: string, suffix: string)
  {
    |suffix| <= |s| && s[|s| - |suffix|..] == suffix
  }

  /** The checks run in order: containment, then existence, then the suffix. So a missing file
      is reported as not found even when its name does not end in `.py`, and an existing
      non-Python file is refused without running anything. */
  lemma CheckOrder(d: Disk, cwd: string, wd: string, fp: string, run: (Disk, string) -> ChildRun)
    requires StartsWith(RunTarget(cwd, wd, fp), Abspath(cwd, wd))
    ensures !Exists(d, cwd, RunTarget(cwd, wd, fp)) ==> RunPythonFile(d, cwd, wd, Str(fp), run) == (Returned(NotFoundError(fp)), d)
    ensures Exists(d, cwd, RunTarget(cwd, wd, fp)) && LastThree(fp) != ".py" ==>
      RunPythonFile(d, cwd, wd, Str(fp), run) == (Returned(NotPythonError(fp)), d)
  {
  }

  /** The normalised guard refuses exactly the targets that do not start with the root, and a
      refused call runs nothing. Every other answer differs from the refusal. */
  lemma RunRefusedOutside(d: Disk, cwd: string, wd: string, fp: string, run: (Disk, string) -> ChildRun)
    ensures RunPythonFile(d, cwd, wd, Str(fp), run).0 == Returned(OutsideError(fp)) <==>
            !StartsWith(RunTarget(cwd, wd, fp), Abspath(cwd, wd))
    ensures !StartsWith(RunTarget(cwd, wd, fp), Abspath(cwd, wd)) ==> RunPythonFile(d, cwd, wd, Str(fp), run).1 == d
  {
    var target := RunTarget(cwd, wd, fp);
    var r := RunPythonFile(d, cwd, wd, Str(fp), run).0;
    var refusal := OutsideError(fp);
    assert refusal[7] == 'C';
    if StartsWith(target, Abspath(cwd, wd)) {
      if !Exists(d, cwd, target) {
        assert NotFoundError(fp)[7] == 'F';
      } else if LastThree(fp) != ".py" {
        assert NotPythonError(fp)[7] == '"';
      } else {
        RunIsNotRefusal(d, target, run, fp);
      }
    }
  }

  /** Soundness of the normalised guard for a root made of names: a relative argument
      escapes refusal exactly when its target lies within the root, or in a sibling directory
      whose name extends the root's last name (`/a/bxx` beside `/a/b`). */
  lemma RunAcceptsWithinOrSibling(d: Disk, cwd: string, rs: seq<string>, fp: string, run: (Disk, string) -> ChildRun)
    requires |rs| >= 1 && AllNames(rs) && !IsAbs(fp)
    ensures var target := RunTarget(cwd, PathOf(rs), fp);
      RunPythonFile(d, cwd, PathOf(rs), Str(fp), run).0 != Returned(OutsideError(fp)) <==>
      Within(PathOf(rs), target) || SiblingExtension(rs, Components(target))
  {
    ComponentsOfPath(rs);
    var root := PathOf(rs);
    assert IsAbs(root) && Abspath(cwd, root) == root;
    JoinOntoNames(rs, fp);
    assert IsAbs(Join(root, fp));
    assert RunTarget(cwd, root, fp) == Normpath(Join(root, fp));
    NormalisedGuardIff(rs, fp);
    RunRefusedOutside(d, cwd, root, fp, run);
  }

  /** What a run that passed the checks returns is never the refusal's text. */
  lemma RunIsNotRefusal(d: Disk, target: string, run: (Disk, string) -> ChildRun, fp: string)
    ensures ChildResult(d, target, run).0 != Returned(OutsideError(fp))
  {
    var refusal := OutsideError(fp);
    assert refusal[0] == 'E' && refusal[7] == 'C';
    var r := ChildResult(d, target, run).0;
    match run(d, target).outcome
    case Exited(status, out, err) =>
      if status != 0 {
        assert r.text[7] == 'e';
      } else {
        FormatOutputInitial(out, err);
      }
    case Killed(_) =>
      assert r.text[7] == 'e';
    case TimedOut =>
    case LaunchFailed(_) =>
  }

  /** The output of a clean exit starts with `N` or `S`, never with `E`. */
  lemma FormatOutputInitial(out: string, err: string)
    ensures |FormatOutput(out, err)| > 0 && FormatOutput(out, err)[0] != 'E'
  {
    FormatOutputLabels(out, err);
    var r := FormatOutput(out, err);
    if out == "" && err == "" {
      assert r[0] == 'N';
    } else if out != "" {
      assert r[..8] == "STDOUT:\n";
      assert r[0] == 'S';
    } else {
      assert r[..8] == "STDERR:\n";
      assert r[0] == 'S';
    }
  }

  /** Only a launched child changes the filesystem: every refusal, and a failed launch,
      leaves it as it was. */
  lemma RefusalsChangeNothing(d: Disk, cwd: string, wd: string, fp: string, run: (Disk, string) -> ChildRun)
    ensures var target := RunTarget(cwd, wd, fp);
      !(StartsWith(target, Abspath(cwd, wd)) && Exists(d, cwd, target) && LastThree(fp) == ".py" &&
        !run(d, target).outcome.LaunchFailed?) ==>
      RunPythonFile(d, cwd, wd, Str(fp), run).1 == d
    ensures var target := RunTarget(cwd, wd, fp);
      StartsWith(target, Abspath(cwd, wd)) && Exists(d, cwd, target) && LastThree(fp) == ".py" &&
      !run(d, target).outcome.LaunchFailed? ==>
      RunPythonFile(d, cwd, wd, Str(fp), run).1 == run(d, target).after
  {
  }

  /** The tool keeps the filesystem consistent when the child does. */
  lemma RunPreservesValid(d: Disk, cwd: string, wd: string, filePath: Value, run: (Disk, string) -> ChildRun)
    requires Valid(d) && ChildKeepsValid(run)
    ensures Valid(RunPythonFile(d, cwd, wd, filePath, run).1)
  {
    if filePath.Str? {
      var target := RunTarget(cwd, wd, filePath.s);
      RefusalsChangeNothing(d, cwd, wd, filePath.s, run);
      assert Valid(run(d, target).after);
    }
  }

  /** A timeout is not caught by the tool: it raises, naming the command and the limit. */
  lemma TimeoutRaises(d: Disk, cwd: string, wd: string, fp: string, run: (Disk, string) -> ChildRun)
    requires StartsWith(RunTarget(cwd, wd, fp), Abspath(cwd, wd))
    requires Exists(d, cwd, RunTarget(cwd, wd, fp)) && |fp| >= 3 && fp[|fp| - 3..] == ".py"
    requires run(d, RunTarget(cwd, wd, fp)).outcome == TimedOut
    ensures RunPythonFile(d, cwd, wd, Str(fp), run).0 ==
      Raised("Command '" + CommandText(RunTarget(cwd, wd, fp)) + "' timed out after 30 seconds")
  {
  }

  /** A successful run returns the labelled output; a non-zero status is reported with the
      status and without the streams. */
  lemma ExitReported(d: Disk, cwd: string, wd: string, fp: string, run: (Disk, string) -> ChildRun)
    requires StartsWith(RunTarget(cwd, wd, fp), Abspath(cwd, wd))
    requires Exists(d, cwd, RunTarget(cwd, wd, fp)) && |fp| >= 3 && fp[|fp| - 3..] == ".py"
    requires run(d, RunTarget(cwd, wd, fp)).outcome.Exited?
    ensures var p := run(d, RunTarget(cwd, wd, fp)).outcome;
      var r := RunPythonFile(d, cwd, wd, Str(fp), run).0;
      r.Returned? &&
      (p.status == 0 ==> r.text == FormatOutput(p.stdout, p.stderr)) &&
      (p.status != 0 ==>
        r.text == "Error: executing Python file: Command '" + CommandText(RunTarget(cwd, wd, fp)) +
                  "' returned non-zero exit status " + NatToString(p.status) + ".")
  {
  }

  /** Past the checks, what a run returns and leaves depends only on the resolved target and
      the filesystem it starts on. */
  lemma SameTargetSameRun(d: Disk, cwd: string, wd1: string, fp1: string, wd2: string, fp2: string,
                          run: (Disk, string) -> ChildRun)
    requires RunTarget(cwd, wd1, fp1) == RunTarget(cwd, wd2, fp2)
    requires StartsWith(RunTarget(cwd, wd1, fp1), Abspath(cwd, wd1))
    requires StartsWith(RunTarget(cwd, wd2, fp2), Abspath(cwd, wd2))
    requires Exists(d, cwd, RunTarget(cwd, wd1, fp1))
    requires LastThree(fp1) == ".py" && LastThree(fp2) == ".py"
    ensures RunPythonFile(d, cwd, wd1, Str(fp1), run) == RunPythonFile(d, cwd, wd2, Str(fp2), run)
  {
  }

  /** The guard compares strings, not components: with the root `/a/b`, the argument
      `../bxx/t.py` resolves to the sibling `/a/bxx/t.py`, outside the root, and is run just
      as `t.py` is from the root `/a/bxx`. */
  lemma SiblingDirectoryRuns(d: Disk, cwd: string, run: (Disk, string) -> ChildRun)
    requires "/a/bxx/t.py" in d.files
    ensures RunPythonFile(d, cwd, "/a/b", Str("../bxx/t.py"), run) == RunPythonFile(d, cwd, "/a/bxx", Str("t.py"), run)
    ensures RunTarget(cwd, "/a/b", "../bxx/t.py") == "/a/bxx/t.py"
    ensures !Within("/a/b", "/a/bxx/t.py")
  {
    SiblingRunChecks(d, cwd);
    SameTargetSameRun(d, cwd, "/a/b", "../bxx/t.py", "/a/bxx", "t.py", run);
    SiblingOutside();
  }

  /** Both calls above pass every check of the tool, on the same target. */
  lemma SiblingRunChecks(d: Disk, cwd: string)
    requires "/a/bxx/t.py" in d.files
    ensures RunTarget(cwd, "/a/b", "../bxx/t.py") == RunTarget(cwd, "/a/bxx", "t.py") == "/a/bxx/t.py"
    ensures StartsWith(RunTarget(cwd, "/a/b", "../bxx/t.py"), Abspath(cwd, "/a/b"))
    ensures StartsWith(RunTarget(cwd, "/a/bxx", "t.py"), Abspath(cwd, "/a/bxx"))
    ensures Exists(d, cwd, RunTarget(cwd, "/a/b", "../bxx/t.py"))
    ensures LastThree("../bxx/t.py") == ".py" && LastThree("t.py") == ".py"
  {
    SiblingTargets(cwd);
    SiblingPrefixes();
    SiblingResolvesToItself(cwd);
    SiblingSuffixes();
  }

  lemma SiblingPrefixes()
    ensures StartsWith("/a/bxx/t.py", "/a/b") && StartsWith("/a/bxx/t.py", "/a/bxx")
  {
    assert "/a/bxx/t.py"[..4] == "/a/b";
    assert "/a/bxx/t.py"[..6] == "/a/bxx";
  }

  lemma SiblingResolvesToItself(cwd: string)
    ensures Resolve(cwd, "/a/bxx/t.py") == "/a/bxx/t.py"
  {
    NormalABXXT();
  }

  lemma SiblingSuffixes()
    ensures LastThree("../bxx/t.py") == ".py" && LastThree("t.py") == ".py"
  {
    assert "../bxx/t.py"[8..] == ".py";
    assert "t.py"[1..] == ".py";
  }

  /** The targets of the two calls above. */
  lemma SiblingTargets(cwd: string)
    ensures Abspath(cwd, "/a/b") == "/a/b"
    ensures Abspath(cwd, "/a/bxx") == "/a/bxx"
    ensures RunTarget(cwd, "/a/b", "../bxx/t.py") == "/a/bxx/t.py"
    ensures RunTarget(cwd, "/a/bxx", "t.py") == "/a/bxx/t.py"
  {
    RootAB(cwd);
    RootABXX(cwd);
    TargetEscaping(cwd);
    TargetDirect(cwd);
  }

  lemma RootAB(cwd: string) ensures Abspath(cwd, "/a/b") == "/a/b" { NormalAB(); }

  lemma RootABXX(cwd: string) ensures Abspath(cwd, "/a/bxx") == "/a/bxx" { NormalABXX(); }

  lemma TargetDirect(cwd: string)
    ensures RunTarget(cwd, "/a/bxx", "t.py") == "/a/bxx/t.py"
  {
    RootABXX(cwd);
    JoinABXX();
    NormalABXXT();
  }

  lemma JoinABXX() ensures Join("/a/bxx", "t.py") == "/a/bxx/t.py" { }

  lemma TargetEscaping(cwd: string)
    ensures RunTarget(cwd, "/a/b", "../bxx/t.py") == "/a/bxx/t.py"
  {
    NormalAB();
    SiblingResolves();
  }

  lemma NormalAB()
    ensures Normpath("/a/b") == "/a/b"
  {
    assert PathOf(["a", "b"]) == "/a/b";
    ComponentsOfPath(["a", "b"]);
  }

  lemma NormalABXX()
    ensures Normpath("/a/bxx") == "/a/bxx"
  {
    assert PathOf(["a", "bxx"]) == "/a/bxx";
    ComponentsOfPath(["a", "bxx"]);
  }

  lemma NormalABXXT()
    ensures Normpath("/a/bxx/t.py") == "/a/bxx/t.py"
  {
    assert PathOf(["a", "bxx", "t.py"]) == "/a/bxx/t.py";
    ComponentsOfPath(["a", "bxx", "t.py"]);
  }
}
