# aiagent: the agent loop and its sandboxed tools

This project models the core of `aiagent`, a small coding agent. A user prompt starts a
conversation with a language-model service. The service answers with text or with function
calls. The agent runs each call against one of four tools, appends the replies to the
conversation and asks again. It stops when an answer has non-empty text, or after `MAX_ITERS`
iterations. The four tools are:

- `get_files_info`: list a directory;
- `get_file_content`: read a file, capped at `MAX_CHARS` characters;
- `write_file`: create or overwrite a file;
- `run_python_file`: run a Python file.

Each tool confines its path argument to a working directory with a string-prefix check.

The model is built in layers:

- `util.dfy` (`Util`): `Option`, a `Try` result, Python's `str.join` and `str.split` on one
  character, and `str` of a natural number, with round-trip lemmas.
- `paths.dfy` (`Paths`): POSIX `os.path.join`, `normpath` and `abspath` on strings, and
  `startswith`. These are the two containment guards and what they do and do not keep out.
  `Within` is containment by components, the notion both guards approximate.
- `types.dfy` (`Types`): argument values, function calls, message parts and contents, and a
  tool's outcome (a returned string or a raised exception).
- `filesystem.dfy` (`FileSystems`): an abstract disk. It maps resolved paths to file data and
  to directories, and holds a set of paths the operating system denies. It provides the
  `os.path` queries, `os.listdir`, `open(...).read()` in text mode, and opening for writing,
  each with the error the operating system raises. A `FileSystem` class holds the mutable
  disk the tools act on.
- `get_files_info.dfy`, `get_file_content.dfy`, `write_file.dfy`, `run_python.dfy`: one
  module per tool. Each tool is a function of the disk. The listing tool is also a method
  with the source's loop, and the write tool is a method that updates the `FileSystem`. Each
  method is proved equal to its function.
- `dispatch.dfy` (`Dispatcher`): `call_function`. It covers the name lookup, the injection of
  the working directory, Python's keyword binding of the tool's parameters, and the fault
  barrier that turns every exception into an error reply.
- `agent.dfy` (`AgentLoop`): `generate_content` as one pass, and the loop of `main`. Both are
  methods of an `Agent` class that owns the conversation, and each is proved equal to a
  function over an `AgentState` (`Pass`, `Drive`). The service is a `Backend` object.
  Its reply to request number `n`, given the conversation sent, is a parameter `respond(n,
  contents)`.

The configuration values `MAX_ITERS`, `WORKING_DIR` and `MAX_CHARS` are parameters
(`Agent.maxIters`, `Env.workingDirectory`, `Env.maxChars`), because `config.py` is not part of
this model. The process's current directory, which `abspath` resolves relative paths
against, is the parameter `cwd`. How a child `python` process runs is a parameter
`run(disk, target)`: how the child ends, and the filesystem it leaves behind.

Some behaviours of the code are easy to misread. The model follows the code:

- `run_python_file` checks that the target exists before it checks the `.py` suffix. So a
  missing file named `x.txt` is reported as not found (`RunPythonTool.CheckOrder`).
- A non-zero exit is reported with `CalledProcessError`'s own text, which gives the command
  and the status but not the streams (`RunPythonTool.ExitReported`).
- A listing call without `directory` does not list the root. `os.path.join(root, None)`
  raises, and the call gets an error reply (`Dispatcher.ListingWithoutDirectory`).
- Only `run_python_file` normalises the target. The other three tools accept every relative
  argument, `..` included (`Paths.JoinGuardIff`, `FileContentTool.ReadEscapesRoot`).
- `write_file` refuses an outside path with a message that says "Cannot read".
- The truncation marker always says 10000 characters, whatever `MAX_CHARS` is.
- A call to a known tool whose arguments are absent raises outside `call_function`'s `try`.
  The exception ends the pass, and the loop goes on (`AgentLoop.BatchEscapesIffBareCall`).
- Text is read in universal-newline mode. So writing `a\rb` and reading it back gives `a\nb`
  (`WriteFileTool.WriteThenReadCarriageReturn`).
- Writing to a path whose parent directory does not exist is an error. The write does not
  create the directory.
- `generate_content` checks for an empty call result and for an empty list of replies.
  Neither check can fire: every reply has one part, and the list has one part per call.

## Model

| member | source | states |
|---|---|---|
| Util.NatToStringRoundTrip | functions/get_files_info.py:27 | the decimal text of a number, as in `file_size=`, reads back as that number |
| Paths.JoinGuardIff | functions/get_files_info.py:10-13 | the unnormalised guard `join(root, p).startswith(root)` holds exactly when `p` is relative or is absolute and itself starts with the root |
| Paths.NormpathAbsolute | functions/run_python.py:8 | a normalised absolute path is absolute and, after its leading slashes, consists of names only (no empty, `.` or `..` component) |
| Paths.ComponentsOfPath | functions/run_python.py:8 | the path built from a list of names is already normal and its components are those names |
| Paths.NormpathIdempotent | functions/run_python.py:8 | `normpath(normpath(p)) == normpath(p)` for every absolute `p` |
| Paths.DescendantAccepted | functions/run_python.py:8-10 | no false rejection: a relative argument without `..` resolves to a path that starts with the root, so the normalised guard accepts it |
| Paths.ParentTraversalResolves | functions/run_python.py:8 | `../n1/.../nk` joined onto the path of names `rs` normalises to `rs` without its last name followed by `n1..nk` |
| Paths.SiblingNotWithin | functions/run_python.py:10 | replacing the root's last name by a different one gives a path that is not within the root |
| Paths.ParentTraversalEscapes | functions/get_file_content.py:7-9 | `../` followed by names passes the unnormalised guard, yet resolves beside the root, outside it |
| Paths.SiblingResolves | functions/run_python.py:8 | `../bxx/t.py` joined onto `/a/b` normalises to `/a/bxx/t.py` |
| Paths.SiblingOutside | functions/run_python.py:10 | `/a/bxx/t.py` is not within `/a/b` by components |
| Paths.SiblingPrefixAccepted | functions/run_python.py:8-10 | the normalised guard accepts `/a/bxx/t.py` for the root `/a/b`, although it is not within the root |
| Paths.NormalisedGuardIff | functions/run_python.py:8-10 | for a root made of names and a relative argument, the normalised guard holds exactly when the target is within the root or in a sibling whose name extends the root's last name |
| Paths.PrefixByNames | functions/run_python.py:10 | the path of names `cs` starts with the path of names `rs` exactly when `cs` extends `rs`, or matches it up to a longer last name |
| FileSystems.Utf8Length | functions/get_files_info.py:27 | a text file's byte size lies between its length and four times its length |
| FileSystems.Getsize | functions/get_files_info.py:27 | `os.path.getsize` succeeds exactly when the path exists |
| FileSystems.Listdir | functions/get_files_info.py:19 | `os.listdir` succeeds exactly on a directory the system does not deny, and then gives its entries in their order |
| FileSystems.UniversalNewlines | functions/get_file_content.py:16-17 | text-mode reading leaves no carriage return and never lengthens the text |
| FileSystems.UniversalNewlinesNoCR | functions/get_file_content.py:16-17 | text without a carriage return is read back unchanged |
| FileSystems.CarriageReturnTranslated | functions/get_file_content.py:16-17 | `a\rb` is read as `a\nb` |
| FileSystems.ReadText | functions/get_file_content.py:16-17 | reading succeeds exactly on an undenied text file that is not a directory, and then gives its text after newline translation |
| FileSystems.OpenForWriteError | functions/write_file.py:10 | opening for writing succeeds exactly when the parent is a directory (and not a file), the path is not a directory and it is not denied |
| FileSystems.StoreFrame | functions/write_file.py:10-11 | storing at `q` changes the file at `q` and no other, keeps the set of directories and the denied set, and only extends directory listings |
| FileSystems.StoreOverwrite | functions/write_file.py:10-11 | truncating on open and then writing equals storing the final content at once |
| FileSystems.StoreLists | functions/write_file.py:10 | a newly created file is listed in its parent directory |
| FileSystems.StorePreservesValid | functions/write_file.py:10-11 | storing a file under an existing directory keeps the disk consistent: nothing is both a file and a directory, and every file is listed in its parent |
| FilesInfoTool.EntryLine | functions/get_files_info.py:27 | an entry's line can be built exactly when the entry's path exists |
| FilesInfoTool.GetFilesInfo | functions/get_files_info.py:4-31 | the loop that appends one line per entry and stops at the first failure returns exactly `FilesInfo` on the current disk, and changes nothing |
| FilesInfoTool.CollectOk | functions/get_files_info.py:25-29 | the listing succeeds exactly when every entry can be sized, and then holds every entry's line in order |
| FilesInfoTool.CollectFirstError | functions/get_files_info.py:25-29 | a failing listing reports the error of the first entry that fails |
| FilesInfoTool.ListingSplitsIntoLines | functions/get_files_info.py:27-31 | for entry names without newlines, splitting the output on newlines gives back exactly one line per entry |
| FilesInfoTool.ListGuard | functions/get_files_info.py:10-16 | an absolute argument outside the root is refused; any other argument that is not a directory gets the not-a-directory error |
| FilesInfoTool.ListingDescribesEntries | functions/get_files_info.py:18-31 | a listable directory whose entries all exist is described by its entries' lines in order, joined by newlines; an empty directory gives the empty string |
| FilesInfoTool.ListingFailureReported | functions/get_files_info.py:15-21 | when `os.listdir` fails on a directory that passed both checks, the output is `Error: ` and the system's error, with no listing |
| FilesInfoTool.ListingReportsFirstFailure | functions/get_files_info.py:25-29 | when some entry cannot be sized, the output is `Error: ` and the first failing entry's error, with no partial listing |
| FilesInfoTool.NonStringDirectoryRaises | functions/get_files_info.py:10 | a directory argument that is not a string makes the tool raise the `TypeError` of `os.path.join` |
| FileContentTool.Truncate | functions/get_file_content.py:18-20 | text within the cap is returned unchanged; longer text gives its first `maxChars` characters followed by the marker; the result is at most the cap plus the marker long |
| FileContentTool.ReadRefusedOutside | functions/get_file_content.py:7-10 | an absolute path that does not start with the root is refused with the outside error |
| FileContentTool.ReadReturnsText | functions/get_file_content.py:7-20 | any other path to a readable text file returns its text, whole or capped with the marker |
| FileContentTool.ReadFaultsReported | functions/get_file_content.py:12-22 | a path that is not a regular file gets the not-a-regular-file error; a read failure gets `Error: ` and the exception's text |
| FileContentTool.ReadEscapesRoot | functions/get_file_content.py:7-9 | with the root `/home/u/calc`, `../secret.txt` reads `/home/u/secret.txt`, which is not within the root |
| WriteFileTool.WriteFile | functions/write_file.py:3-16 | the method's result and the new disk are exactly `WriteEffect` of the old disk |
| WriteFileTool.WriteRefusedOutside | functions/write_file.py:4-7 | an absolute path that does not start with the root is refused and the disk is unchanged |
| WriteFileTool.WriteFailureChangesNothing | functions/write_file.py:9-16 | a failed open reports `Error: ` and the system's error, and the disk is unchanged |
| WriteFileTool.WriteSucceeds | functions/write_file.py:9-13 | a successful write reports the character count; the target then holds exactly the content, every other file is unchanged, and the directories and denied set are kept |
| WriteFileTool.WriteNonStringEmpties | functions/write_file.py:10-16 | a content argument that is not a string still leaves the file created or emptied, and reports the `TypeError`; for a `None` content the text is `Error: write() argument must be str, not None` |
| WriteFileTool.WritePreservesValid | functions/write_file.py:3-16 | every call keeps the disk consistent |
| WriteFileTool.WriteThenRead | functions/write_file.py:10-11 | after a successful write of content without carriage returns, reading the same path gives the content back, capped with the marker when it is longer than the cap |
| WriteFileTool.WriteThenReadCarriageReturn | functions/write_file.py:10-11 | the round trip needs that condition: `a\rb` reads back as `a\nb` |
| RunPythonTool.SuffixCheckIsEndsWith | functions/run_python.py:16 | the check on the last three characters is exactly "ends with `.py`" |
| RunPythonTool.FormatOutputLabels | functions/run_python.py:23-31 | "No output produced." exactly when both streams are empty; otherwise the labelled stdout block comes first and the labelled stderr block last, joined by a newline when both are present; with one stream, its labelled block alone |
| RunPythonTool.CheckOrder | functions/run_python.py:10-17 | past the containment check, a missing target is reported as not found whatever its suffix, and an existing file without `.py` is refused without running; neither changes the disk |
| RunPythonTool.RunRefusedOutside | functions/run_python.py:8-11 | the outside error is returned exactly when the normalised target does not start with the root, and then the disk is unchanged |
| RunPythonTool.RunAcceptsWithinOrSibling | functions/run_python.py:8-11 | for a root made of names and a relative argument, the call escapes refusal exactly when the target lies within the root or in a sibling directory whose name extends the root's last name |
| RunPythonTool.RefusalsChangeNothing | functions/run_python.py:10-21 | the disk changes only through a launched child: every refusal and a failed launch leave it as it was; otherwise it is what the child left |
| RunPythonTool.RunPreservesValid | functions/run_python.py:6-31 | the tool keeps the disk consistent when the child does |
| RunPythonTool.TimeoutRaises | functions/run_python.py:19-29 | a timeout is not caught by the tool; it raises the command and the 30-second limit |
| RunPythonTool.ExitReported | functions/run_python.py:21-31 | status 0 returns the labelled output; a non-zero status returns `Error: executing Python file: ` and the error's text, which names the command and the status |
| RunPythonTool.SameTargetSameRun | functions/run_python.py:8-31 | past the checks, the outcome and the disk after it depend only on the resolved target and the disk the child starts on |
| RunPythonTool.SiblingDirectoryRuns | functions/run_python.py:8-10 | with the root `/a/b`, `../bxx/t.py` is run exactly as `t.py` from the root `/a/bxx`, although the target is not within `/a/b` |
| Dispatcher.Missing | main.py:209 | the missing parameters are exactly the required ones without a keyword |
| Dispatcher.QuoteAll | main.py:209 | one quoted name per name: entry `i` is name `i` in single quotes |
| Dispatcher.BindError | main.py:209 | binding succeeds exactly when every keyword is a parameter of the tool and every required parameter is given |
| Dispatcher.ToolCall | main.py:209 | `get_files_info` and `get_file_content` leave the disk unchanged; only `write_file` and the child of `run_python_file` can change it |
| Dispatcher.InjectRoot | main.py:204-205 | the tool's arguments are the model's with `working_directory` set to the configured root, whatever the model sent; every other argument is kept |
| Dispatcher.Dispatch | main.py:184-226 | an exception escapes exactly for a known tool with absent arguments; every other call gets one tool-role turn with one reply part named after the call; only a `write_file` or a `run_python_file` call can change the disk |
| Dispatcher.CallTool | main.py:209 | the method's result and the new disk are exactly `ToolCall` of the old disk |
| Dispatcher.CallFunction | main.py:184-226 | the method's result and the new disk are exactly `Dispatch` of the old disk |
| Dispatcher.UnknownFunctionRejected | main.py:194-203 | an unknown name gets the error reply `Unknown function: <name>` and the disk is unchanged |
| Dispatcher.RootCannotBeOverridden | main.py:204-205 | a call carrying its own `working_directory` behaves exactly like the same call without it |
| Dispatcher.ToolExceptionsReported | main.py:219-226 | an exception raised by a tool becomes the error reply `Error: <message>` |
| Dispatcher.ToolResultsReported | main.py:209-218 | a value a tool returns becomes the reply's result, and the disk is the one the tool left |
| Dispatcher.WriteCallWrites | main.py:208-218 | a `write_file` call with both arguments performs exactly the tool's write and replies with its return value |
| Dispatcher.NoDirectoryBinds | main.py:209 | `get_files_info` binds with only the injected root, since `directory` has a default |
| Dispatcher.ListingWithoutDirectory | main.py:208-226 | a listing call without `directory` gets the `TypeError` of joining `None` as an error reply |
| Dispatcher.BindingFailureReported | main.py:208-226 | a binding failure becomes an error reply and changes nothing |
| Dispatcher.ReadMissingPath | main.py:209 | `get_file_content` with only the root is missing `file_path` |
| Dispatcher.WriteMissingArguments | main.py:209 | `write_file` with only the root is missing `file_path` and `content`, in that order |
| Dispatcher.MissingArgumentsReported | main.py:208-226 | calls with no arguments to the read and write tools get the missing-argument error replies |
| Dispatcher.UnexpectedArgumentReported | main.py:208-226 | a keyword a tool does not declare gets the unexpected-keyword error reply |
| Dispatcher.DispatchPreservesValid | main.py:184-226 | every call keeps the disk consistent, given a child process that does |
| AgentLoop.DispatchAll | main.py:167-177 | a batch that completes has one part per call |
| AgentLoop.CallAll | main.py:167-180 | the loop over the calls leaves exactly `DispatchAll`'s disk and returns its parts or its escaped exception |
| AgentLoop.BatchInCallOrder | main.py:167-177 | part `i` of a completed batch is the reply to call `i`, names it, and was computed on the disk the earlier calls left |
| AgentLoop.BatchEscapesIffBareCall | main.py:168-169 | a batch raises exactly when some call names a tool but has no arguments |
| AgentLoop.BatchEscapeAt | main.py:167-177 | the first such call ends the batch: the calls before it all replied, the exception is that of copying absent arguments, and the disk is as those calls left it |
| AgentLoop.BatchPreservesValid | main.py:167-177 | a batch keeps the disk consistent, given a child process that does |
| AgentLoop.Backend.GenerateContent | main.py:146-153 | each request is recorded with the conversation it carried, and its reply is the service's reply to that request number |
| AgentLoop.Agent.constructor | main.py:124 | the conversation starts with one user turn holding the prompt |
| AgentLoop.Agent.GenerateContent | main.py:144-182 | the method's result and the new state are exactly `Pass` of the old state, and it sends one request carrying the conversation as it was |
| AgentLoop.Agent.Run | main.py:127-142 | the method's outcome and the final state are exactly `Drive` from the initial state |
| AgentLoop.PassAppendOnly | main.py:159-182 | a pass sends exactly one request and only appends to the conversation |
| AgentLoop.PassWithoutCalls | main.py:159-165 | without function calls a pass returns the response's text, appends the candidates only, and leaves the disk alone |
| AgentLoop.PassToolTurn | main.py:159-182 | with k >= 1 calls a pass appends the candidates and then exactly one user turn of k reply parts in call order, and returns `None`; that turn's parts are exactly the batch's replies from `DispatchAll`, and the new disk is the batch's disk |
| AgentLoop.PassPreservesValid | main.py:144-182 | a pass keeps the disk consistent, given a child process that does |
| AgentLoop.DriveBounded | main.py:127-142 | the loop sends at most `MAX_ITERS` requests and exactly that many when it stops at the limit; it only appends to the conversation and keeps the disk consistent when every child does |
| AgentLoop.DriveAnswerNonEmpty | main.py:137-140 | the loop ends with an answer only when it is a non-empty string |
| AgentLoop.DriveExhaustsBudget | main.py:127-142 | if the service never yields a non-empty answer, the loop stops at the limit after exactly `MAX_ITERS` requests |
| AgentLoop.DriveImmediateAnswer | main.py:136-140 | a first reply with non-empty text and no calls ends the loop after one request, with that text |
| AgentLoop.FailedPassContinues | main.py:135-153 | a failed request raises from the pass, keeps the conversation as it was, and the loop goes on with the next iteration |
| AgentLoop.BareCallPassContinues | main.py:135-177 | a pass whose response holds a call to a tool without arguments raises after appending the candidates and no tool turn, with the disk the earlier calls left, and the loop goes on |
| AgentLoop.DriveZeroBudget | main.py:127-133 | with a limit of zero no request is sent |

## Left out

- Printing is not modelled. This covers the `--verbose` flag and its token counts, the call
  announcements, the final answer, the iteration-limit message and the caught exception's
  text. With `--verbose`, printing an error reply's `"result"` raises a `KeyError`; that path
  is left out with the rest.
- Command-line handling is not modelled: reading `sys.argv`, the empty-prompt check and the
  exit status. The prompt is a parameter, and `sys.exit(1)` at the limit is the outcome
  `BudgetExhausted`.
- `load_dotenv`, the API key, the client, the model name, the tool schemas and the system
  prompt are left out. The service is the function `respond`.
- A candidate whose `content` is `None` is left out. Candidates are contents.
- `response.text` raising is left out. The text is an `Option`.
- The child process is a parameter `run(disk, target)`. It gives how the child ended (exit
  status and streams, a signal, a timeout, or a failed launch) and the filesystem it left,
  which may differ from the old one anywhere. A failed launch changes nothing. After a
  timeout the disk is what the killed child left. The child's other inputs (clock, network,
  environment) are folded into `run`. Because `run` is a function of the disk and the
  target, two runs of one script on the same disk, within one batch or across passes, give
  the same outcome; a real script that reads the clock or the network may not
  (`RunPythonTool.SameTargetSameRun` rests on this). The 30-second limit appears only in the
  timeout's message.
- `RunPythonTool.ChildKeepsValid`: the lemmas that keep the disk consistent assume the child
  leaves a consistent filesystem when it starts on one, as the operating system does.
- Filesystem resolution is lexical (`abspath`): every path is first normalised and only then
  looked up. Symbolic links are not modelled. The model also loses what the operating system
  does with unnormalised paths. A trailing slash after a file name (`x.txt/`) reads the file
  in the model, where Python's `isfile` is false and the read tool gives its
  not-a-regular-file error. The write tool writes `x.txt/` in the model, where `open` raises
  `EISDIR`. A `..` after a missing directory (`missing/../x.txt`) resolves in the model, where
  the operating system raises `ENOENT`.
- Directory sizes and binary files' sizes are given values. Text files are sized by their
  UTF-8 encoding.
- Permission errors come from a set of denied paths. Binary files carry their own decoding
  error text.
- `os.listdir` order is whatever order the directory's entries are given in.
- `FileSystems.Parent`: the parent of the root `//` is taken to be `/`.
- `Dispatcher.BindError`: the unexpected-keyword `TypeError` does not name the keyword, because the model's argument map has no order.
- `Dispatcher.UnexpectedArgumentReported`: its reply has the same unnamed-keyword text as `Dispatcher.BindError`.
- `FileSystems.OsError`: paths are quoted with single quotes. Python's `repr` switches to double quotes for a path that contains a single quote, and it escapes backslashes, newlines and other non-printable characters, which the model copies through unchanged.
- `RunPythonTool.CommandText`: the target in the command's list is quoted with single quotes, with the same exceptions: a path that contains one is double-quoted, and backslashes, newlines and other non-printable characters, which `repr` escapes, are copied through unchanged.
- `RunPythonTool.ExitReported`: the status is a natural number. A negative status (a signal) is the separate outcome `Killed`, whose text is given.
