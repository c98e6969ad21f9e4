/** `call_function`: route one function call of the model to its tool, with the working
    directory injected, and wrap what the tool returns or raises in a single tool turn. */
module Dispatcher {
  import opened Util
  import opened Types
  import opened FileSystems
  import opened FilesInfoTool
  import opened FileContentTool
  import opened RunPythonTool
  import opened WriteFileTool

  /** What the dispatcher works with besides the call: the process's current directory, the
      configured working directory (`WORKING_DIR`), the read cap (`MAX_CHARS`) and how a
      child interpreter runs on each filesystem and target. */
  datatype Env = Env(cwd: string, workingDirectory: string, maxChars: nat, run: (Disk, string) -> ChildRun)

  const WorkingDirectoryKey: string := "working_directory"

  /** The four tools of the registry. */
  predicate IsTool(name: string)
  {
    name == "get_files_info" || name == "get_file_content" || name == "run_python_file" || name == "write_file"
  }

  /** A tool's parameters, in declaration order. */
  function Parameters(name: string): seq<string>
  {
    if name == "get_files_info" then [WorkingDirectoryKey, "directory"]
    else if name == "write_file" then [WorkingDirectoryKey, "file_path", "content"]
    else [WorkingDirectoryKey, "file_path"]
  }

  /** The parameters without a default: all but `directory`, which defaults to `None`. */
  function Required(name: string): seq<string>
  {
    if name == "get_files_info" then [WorkingDirectoryKey] else Parameters(name)
  }

  /** The names of `required` not bound by `keys`, in order. */
  function Missing(required: seq<string>, keys: set<string>): (m: seq<string>)
    ensures forall x :: x in m <==> x in required && x !in keys
    ensures |m| <= |required|
  {
    if required == [] then []
    else (if required[0] in keys then [] else [required[0]]) + Missing(required[1..], keys)
  }

  function Quote(s: string): string
  {
    "'" + s + "'"
  }

  function QuoteAll(names: seq<string>): (r: seq<string>)
    ensures |r| == |names|
    ensures forall i :: 0 <= i < |names| ==> r[i] == Quote(names[i])
  {
    if names == [] then [] else [Quote(names[0])] + QuoteAll(names[1..])
  }

  /** How Python lists missing parameters: `'a'`, `'a' and 'b'`, `'a', 'b', and 'c'`. */
  function QuoteList(names: seq<string>): string
    requires |names| >= 1
  {
    var n := |names|;
    if n == 1 then Quote(names[0])
    else if n == 2 then Quote(names[0]) + " and " + Quote(names[1])
    else JoinWith(", ", QuoteAll(names[..n - 1])) + ", and " + Quote(names[n - 1])
  }

  /** The `TypeError` text for parameters left unbound. */
  function MissingText(name: string, missing: seq<string>): string
    requires |missing| >= 1
  {
    name + "() missing " + NatToString(|missing|) + " required positional argument" +
    (if |missing| == 1 then "" else "s") + ": " + QuoteList(missing)
  }

  /** The `TypeError` that binding `tool(**kwargs)` raises, if any: an unknown keyword is
      reported before missing parameters. */
  function BindError(name: string, kwargs: map<string, Value>): (r: Option<string>)
    ensures r.None? <==>
      (forall k :: k in kwargs ==> k in Parameters(name)) &&
      (forall p :: p in Required(name) ==> p in kwargs)
  {
    if exists k :: k in kwargs && k !in Parameters(name) then
      Some(name + "() got an unexpected keyword argument")
    else
      var m := Missing(Required(name), kwargs.Keys);
      if m != [] then
        assert m[0] in m;
        Some(MissingText(name, m))
      else
        assert forall p :: p in Required(name) ==> p in kwargs by {
          forall p | p in Required(name) ensures p in kwargs { assert p !in m; }
        }
        None
  }

  /** The value bound to `key`, or the default `None`. */
  function Arg(kwargs: map<string, Value>, key: string): Value
  {
    if key in kwargs then kwargs[key] else NonStr("NoneType")
  }

  /** The `TypeError` of `os.path.abspath` on a value that is not a path. */
  function FspathTypeError(typeName: string): string
  {
    "expected str, bytes or os.PathLike object, not " + typeName
  }

  /** `functions[name](**kwargs)`: what the tool returns or raises, and the disk after it. */
  function ToolCall(d: Disk, name: string, kwargs: map<string, Value>, env: Env): (r: (ToolOutcome, Disk))
    requires IsTool(name)
    ensures name != "write_file" && name != "run_python_file" ==> r.1 == d
  {
    match BindError(name, kwargs)
    case Some(e) => (Raised(e), d)
    case None =>
      BoundArguments(name, kwargs);
      match kwargs[WorkingDirectoryKey]
      case NonStr(t) => (Raised(FspathTypeError(t)), d)
      case Str(wd) =>
        if name == "write_file" then WriteEffect(d, env.cwd, wd, kwargs["file_path"], kwargs["content"])
        else if name == "run_python_file" then RunPythonFile(d, env.cwd, wd, kwargs["file_path"], env.run)
        else (ReadOnlyTool(d, name, wd, kwargs, env), d)
  }

  /** What a successful binding guarantees: the root, and the parameters without a
      default. */
  lemma BoundArguments(name: string, kwargs: map<string, Value>)
    requires IsTool(name) && BindError(name, kwargs).None?
    ensures WorkingDirectoryKey in kwargs
    ensures name != "get_files_info" ==> "file_path" in kwargs
    ensures name == "write_file" ==> "content" in kwargs
  {
    assert Required(name)[0] == WorkingDirectoryKey;
    if name != "get_files_info" { assert Required(name)[1] == "file_path"; }
    if name == "write_file" { assert Required(name)[2] == "content"; }
  }

  /** The two tools that only look at the filesystem, once their arguments are bound. */
  function ReadOnlyTool(d: Disk, name: string, wd: string, kwargs: map<string, Value>, env: Env): ToolOutcome
    requires name == "get_files_info" || name == "get_file_content"
    requires name != "get_files_info" ==> "file_path" in kwargs
  {
    if name == "get_files_info" then FilesInfo(d, env.cwd, wd, Arg(kwargs, "directory"))
    else GetFileContent(d, env.cwd, wd, kwargs["file_path"], env.maxChars)
  }

  /** The arguments the tool receives: the model's, with the working directory set by the
      dispatcher, whatever the model sent for it. */
  function InjectRoot(args: map<string, Value>, workingDirectory: string): (r: map<string, Value>)
    ensures r.Keys == args.Keys + {WorkingDirectoryKey}
    ensures r[WorkingDirectoryKey] == Str(workingDirectory)
    ensures forall k :: k in args && k != WorkingDirectoryKey ==> r[k] == args[k]
  {
    args[WorkingDirectoryKey := Str(workingDirectory)]
  }

  /** What `call_function` produces: a tool turn, or an exception that escapes it. */
  datatype CallResult = Replied(content: Content) | Escaped(message: string)

  /** The turn holding one function-response part. */
  function ReplyTurn(name: string, payload: Payload): Content
  {
    Content("tool", [Reply(name, payload)])
  }

  /** The text of the `AttributeError` of copying absent arguments. */
  const NoArgsError: string := "'NoneType' object has no attribute 'copy'"

  /** `call_function(call)`: the result and the disk after it. A call to an unknown name and
      any exception of the tool become an error reply; only a known call without arguments
      escapes, because copying the arguments happens outside the handler. */
  function Dispatch(d: Disk, call: FunctionCall, env: Env): (r: (CallResult, Disk))
    ensures r.0.Escaped? <==> IsTool(call.name) && call.args.None?
    ensures r.0.Replied? ==>
      r.0.content.role == "tool" && |r.0.content.parts| == 1 &&
      r.0.content.parts[0].Reply? && r.0.content.parts[0].name == call.name
    ensures r.0.Escaped? || !IsTool(call.name) || (call.name != "write_file" && call.name != "run_python_file") ==> r.1 == d
  {
    if !IsTool(call.name) then (Replied(ReplyTurn(call.name, Error("Unknown function: " + call.name))), d)
    else match call.args
      case None => (Escaped(NoArgsError), d)
      case Some(args) =>
        var (out, e) := ToolCall(d, call.name, InjectRoot(args, env.workingDirectory), env);
        match out
        case Returned(t) => (Replied(ReplyTurn(call.name, Result(t))), e)
        case Raised(m) => (Replied(ReplyTurn(call.name, Error("Error: " + m))), e)
  }

  /** The tool call itself, on the mutable filesystem. */
  method CallTool(fs: FileSystem, name: string, kwargs: map<string, Value>, env: Env) returns (out: ToolOutcome)
    requires IsTool(name)
    modifies fs
    ensures (out, fs.View()) == ToolCall(old(fs.View()), name, kwargs, env)
  {
    var bindError := BindError(name, kwargs);
    if bindError.Some? {
      return Raised(bindError.value);
    }
    BoundArguments(name, kwargs);
    var root := kwargs[WorkingDirectoryKey];
    if root.NonStr? {
      return Raised(FspathTypeError(root.typeName));
    }
    if name == "write_file" {
      out := WriteFile(fs, env.cwd, root.s, kwargs["file_path"], kwargs["content"]);
    } else if name == "get_files_info" {
      out := GetFilesInfo(fs, env.cwd, root.s, Arg(kwargs, "directory"));
    } else if name == "run_python_file" {
      var run := RunPythonFile(fs.View(), env.cwd, root.s, kwargs["file_path"], env.run);
      fs.Replace(run.1);
      out := run.0;
    } else {
      out := ReadOnlyTool(fs.View(), name, root.s, kwargs, env);
    }
  }

  /** `call_function` on the mutable filesystem. */
  method CallFunction(fs: FileSystem, call: FunctionCall, env: Env) returns (r: CallResult)
    modifies fs
    ensures (r, fs.View()) == Dispatch(old(fs.View()), call, env)
  {
    if !IsTool(call.name) {
      return Replied(ReplyTurn(call.name, Error("Unknown function: " + call.name)));
    }
    if call.args.None? {
      return Escaped(NoArgsError);
    }
    var funcArgs := call.args.value;
    funcArgs := funcArgs[WorkingDirectoryKey := Str(env.workingDirectory)];
    var out := CallTool(fs, call.name, funcArgs, env);
    match out
    case Returned(t) => r := Replied(ReplyTurn(call.name, Result(t)));
    case Raised(m) => r := Replied(ReplyTurn(call.name, Error("Error: " + m)));
  }

  /** An unknown name invokes no tool: the reply names the function and nothing changes. */
  lemma UnknownFunctionRejected(d: Disk, call: FunctionCall, env: Env)
    requires !IsTool(call.name)
    ensures Dispatch(d, call, env) == (Replied(ReplyTurn(call.name, Error("Unknown function: " + call.name))), d)
  {
  }

  /** The model cannot choose the root: a call that sends its own working directory behaves
      exactly like the same call without it. */
  lemma RootCannotBeOverridden(d: Disk, name: string, args: map<string, Value>, v: Value, env: Env)
    ensures Dispatch(d, FunctionCall(name, Some(args[WorkingDirectoryKey := v])), env) ==
            Dispatch(d, FunctionCall(name, Some(args - {WorkingDirectoryKey})), env)
  {
    var a := InjectRoot(args[WorkingDirectoryKey := v], env.workingDirectory);
    var b := InjectRoot(args - {WorkingDirectoryKey}, env.workingDirectory);
    assert a == b;
  }

  /** Every exception a tool raises comes back as an error reply prefixed with `Error: `. */
  lemma ToolExceptionsReported(d: Disk, name: string, args: map<string, Value>, env: Env)
    requires IsTool(name)
    requires ToolCall(d, name, InjectRoot(args, env.workingDirectory), env).0.Raised?
    ensures var m := ToolCall(d, name, InjectRoot(args, env.workingDirectory), env).0.message;
      Dispatch(d, FunctionCall(name, Some(args)), env).0 == Replied(ReplyTurn(name, Error("Error: " + m)))
  {
  }

  /** What a tool returns becomes the reply's result, and the disk is the one the tool left. */
  lemma ToolResultsReported(d: Disk, name: string, args: map<string, Value>, env: Env)
    requires IsTool(name)
    ensures var (out, e) := ToolCall(d, name, InjectRoot(args, env.workingDirectory), env);
      out.Returned? ==> Dispatch(d, FunctionCall(name, Some(args)), env) == (Replied(ReplyTurn(name, Result(out.text))), e)
  {
  }

  /** A `write_file` call with its two arguments performs exactly the tool's write in the
      configured working directory. */
  lemma WriteCallWrites(d: Disk, fp: Value, content: Value, env: Env)
    ensures var call := FunctionCall("write_file", Some(map["file_path" := fp, "content" := content]));
      var eff := WriteEffect(d, env.cwd, env.workingDirectory, fp, content);
      Dispatch(d, call, env).1 == eff.1 &&
      (eff.0.Returned? ==> Dispatch(d, call, env).0 == Replied(ReplyTurn("write_file", Result(eff.0.text))))
  {
    var kwargs := InjectRoot(map["file_path" := fp, "content" := content], env.workingDirectory);
    assert kwargs.Keys == {"file_path", "content", WorkingDirectoryKey};
    assert BindError("write_file", kwargs).None?;
  }

  /** Binding the injected arguments of a `get_files_info` call without a directory. */
  lemma NoDirectoryBinds(w: string)
    ensures BindError("get_files_info", map[WorkingDirectoryKey := Str(w)]).None?
  {
    var kwargs := map[WorkingDirectoryKey := Str(w)];
    assert kwargs.Keys == {WorkingDirectoryKey};
    assert Parameters("get_files_info")[0] == WorkingDirectoryKey;
    assert Required("get_files_info") == [WorkingDirectoryKey];
  }

  /** A `get_files_info` call without a directory raises inside the tool, because the default
      `None` cannot be joined to the root; the reply carries that error. */
  lemma ListingWithoutDirectory(d: Disk, env: Env)
    ensures Dispatch(d, FunctionCall("get_files_info", Some(map[])), env) ==
      (Replied(ReplyTurn("get_files_info", Error("Error: " + JoinTypeError("NoneType")))), d)
  {
    var kwargs := InjectRoot(map[], env.workingDirectory);
    assert kwargs == map[WorkingDirectoryKey := Str(env.workingDirectory)];
    NoDirectoryBinds(env.workingDirectory);
    assert Arg(kwargs, "directory") == NonStr("NoneType");
    NonStringDirectoryRaises(d, env.cwd, env.workingDirectory, "NoneType");
    assert ToolCall(d, "get_files_info", kwargs, env).0 == Raised(JoinTypeError("NoneType"));
    ToolExceptionsReported(d, "get_files_info", map[], env);
  }

  /** A binding error is reported as the reply, and no tool runs. */
  lemma BindingFailureReported(d: Disk, name: string, args: map<string, Value>, env: Env)
    requires IsTool(name)
    requires BindError(name, InjectRoot(args, env.workingDirectory)).Some?
    ensures Dispatch(d, FunctionCall(name, Some(args)), env) == (Replied(ReplyTurn(name,
      Error("Error: " + BindError(name, InjectRoot(args, env.workingDirectory)).value))), d)
  {
  }

  /** The binding error of `get_file_content` with only the injected root names `file_path`. */
  lemma ReadMissingPath(w: string)
    ensures BindError("get_file_content", map[WorkingDirectoryKey := Str(w)]) ==
      Some(MissingText("get_file_content", ["file_path"]))
  {
    var k1 := map[WorkingDirectoryKey := Str(w)];
    var wd, fp := WorkingDirectoryKey, "file_path";
    assert k1.Keys == {wd} && fp !in k1.Keys;
    assert Missing([fp], k1.Keys) == [fp] by { assert [fp][1..] == []; }
    assert Missing([wd, fp], k1.Keys) == [fp] by { assert [wd, fp][1..] == [fp]; }
  }

  /** The binding error of `write_file` with only the injected root names both parameters,
      in declaration order. */
  lemma WriteMissingArguments(w: string)
    ensures BindError("write_file", map[WorkingDirectoryKey := Str(w)]) ==
      Some(MissingText("write_file", ["file_path", "content"]))
  {
    var k1 := map[WorkingDirectoryKey := Str(w)];
    var wd, fp, c := WorkingDirectoryKey, "file_path", "content";
    assert k1.Keys == {wd} && fp !in k1.Keys && c !in k1.Keys;
    assert Missing([c], k1.Keys) == [c] by { assert [c][1..] == []; }
    assert Missing([fp, c], k1.Keys) == [fp, c] by { assert [fp, c][1..] == [c]; }
    assert Missing([wd, fp, c], k1.Keys) == [fp, c] by { assert [wd, fp, c][1..] == [fp, c]; }
  }

  /** A call missing a required argument is refused by binding, before the tool runs. */
  lemma MissingArgumentsReported(d: Disk, env: Env)
    ensures Dispatch(d, FunctionCall("get_file_content", Some(map[])), env) == (Replied(ReplyTurn(
      "get_file_content", Error("Error: " + MissingText("get_file_content", ["file_path"])))), d)
    ensures Dispatch(d, FunctionCall("write_file", Some(map[])), env) == (Replied(ReplyTurn(
      "write_file", Error("Error: " + MissingText("write_file", ["file_path", "content"])))), d)
  {
    assert InjectRoot(map[], env.workingDirectory) == map[WorkingDirectoryKey := Str(env.workingDirectory)];
    ReadMissingPath(env.workingDirectory);
    WriteMissingArguments(env.workingDirectory);
    BindingFailureReported(d, "get_file_content", map[], env);
    BindingFailureReported(d, "write_file", map[], env);
  }

  /** An argument the tool does not declare is refused by binding, and nothing changes. */
  lemma UnexpectedArgumentReported(d: Disk, name: string, args: map<string, Value>, k: string, env: Env)
    requires IsTool(name) && k in args && k !in Parameters(name)
    ensures Dispatch(d, FunctionCall(name, Some(args)), env) ==
      (Replied(ReplyTurn(name, Error("Error: " + name + "() got an unexpected keyword argument"))), d)
  {
    var kwargs := InjectRoot(args, env.workingDirectory);
    assert k in kwargs && k !in Parameters(name);
    assert BindError(name, kwargs) == Some(name + "() got an unexpected keyword argument");
    assert "Error: " + (name + "() got an unexpected keyword argument") ==
           "Error: " + name + "() got an unexpected keyword argument";
  }

  /** No call leaves the filesystem inconsistent, given a child that does not. */
  lemma DispatchPreservesValid(d: Disk, call: FunctionCall, env: Env)
    requires Valid(d) && ChildKeepsValid(env.run)
    ensures Valid(Dispatch(d, call, env).1)
  {
    if IsTool(call.name) && call.args.Some? {
      ToolCallPreservesValid(d, call.name, InjectRoot(call.args.value, env.workingDirectory), env);
    }
  }

  lemma ToolCallPreservesValid(d: Disk, name: string, kwargs: map<string, Value>, env: Env)
    requires Valid(d) && IsTool(name) && ChildKeepsValid(env.run)
    ensures Valid(ToolCall(d, name, kwargs, env).1)
  {
    if BindError(name, kwargs).None? {
      BoundArguments(name, kwargs);
      if kwargs[WorkingDirectoryKey].Str? {
        var wd := kwargs[WorkingDirectoryKey].s;
        if name == "write_file" {
          WritePreservesValid(d, env.cwd, wd, kwargs["file_path"], kwargs["content"]);
        } else if name == "run_python_file" {
          RunPreservesValid(d, env.cwd, wd, kwargs["file_path"], env.run);
        }
      }
    }
  }
}
