/** The values that flow between the model, the dispatcher and the tools: function-call
    arguments, function calls, the parts and turns of the conversation. */
module Types {
  import opened Util

  /** An argument value the model supplies. Only strings are meaningful to the tools; any
      other value is kept by its Python type name, which is all the tools' errors show. */
  datatype Value = Str(s: string) | NonStr(typeName: string)

  /** A function call the model issues. `args` is `None` when the call carries no argument
      object at all. */
  datatype FunctionCall = FunctionCall(name: string, args: Option<map<string, Value>>)

  /** The response object of a function-response part: `{"result": ...}` or `{"error": ...}`. */
  datatype Payload = Result(result: string) | Error(error: string)

  /** One part of a conversation turn. */
  datatype Part =
    | Text(text: string)
    | Call(call: FunctionCall)
    | Reply(name: string, response: Payload)

  /** One conversation turn: a role and its parts. */
  datatype Content = Content(role: string, parts: seq<Part>)

  /** What calling a tool does: it returns a string, or it raises with a message. */
  datatype ToolOutcome = Returned(text: string) | Raised(message: string)

  /** The `TypeError` text of `os.path.join` when a component is not a string. */
  function JoinTypeError(typeName: string): string
  {
    "join() argument must be str, bytes, or os.PathLike object, not '" + typeName + "'"
  }
}
