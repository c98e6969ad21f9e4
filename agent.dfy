/** The agent: `generate_content`, one request to the model followed by the function calls
    it asks for, and the driver loop of `main`, which repeats passes until one yields a
    non-empty answer or the iteration budget is spent. The model service is not modelled:
    its reply to the n-th request, given the conversation sent, is a parameter. */
module AgentLoop {
  import opened Util
  import opened Types
  import opened FileSystems
  import opened Dispatcher
  import opened RunPythonTool

  /** A model response: the candidates' contents, the function calls it asks for, and its
      text (`None` when it has none). */
  datatype ModelResponse = ModelResponse(candidates: seq<Content>, functionCalls: seq<FunctionCall>, text: Option<string>)

  /** What one request to the service yields: a response, or an exception. */
  datatype BackendReply = Responded(response: ModelResponse) | Failed(message: string)

  /** What `generate_content` does: return a value (the response's text, or `None` after a
      tool turn), or raise. */
  datatype PassOutcome = Returns(value: Option<string>) | Raises(message: string)

  /** How `main` ends: with the final answer, or at the iteration limit (exit status 1). */
  datatype RunOutcome = Finished(answer: string) | BudgetExhausted

  /** What the loop's outcome depends on: the filesystem, the conversation and how many
      requests have been sent. */
  datatype AgentState = AgentState(disk: Disk, messages: seq<Content>, requests: nat)

  /** Python's truth value of `generate_content`'s result: a non-empty string. */
  predicate Truthy(p: PassOutcome)
  {
    p.Returns? && p.value.Some? && p.value.value != ""
  }

  /** The function calls of one response dispatched in order: all replies, or the exception
      that escaped, with the disk as it was when it did. */
  datatype Batch = AllReplied(parts: seq<Part>, disk: Disk) | BatchEscaped(message: string, disk: Disk)

  function DispatchAll(d: Disk, calls: seq<FunctionCall>, env: Env): (b: Batch)
    ensures b.AllReplied? ==> |b.parts| == |calls|
    decreases |calls|
  {
    if calls == [] then AllReplied([], d)
    else
      match DispatchAll(d, calls[..|calls| - 1], env)
      case BatchEscaped(m, e) => BatchEscaped(m, e)
      case AllReplied(parts, e) =>
        match Dispatch(e, calls[|calls| - 1], env)
        case (Escaped(m), e') => BatchEscaped(m, e')
        case (Replied(c), e') => AllReplied(parts + [c.parts[0]], e')
  }

  /** One `generate_content` pass from state `st`, where `respond(n, contents)` is the
      service's reply to request number `n` carrying `contents`. */
  function Pass(respond: (nat, seq<Content>) -> BackendReply, env: Env, st: AgentState): (PassOutcome, AgentState)
  {
    var n := st.requests;
    match respond(n, st.messages)
    case Failed(m) => (Raises(m), st.(requests := n + 1))
    case Responded(resp) =>
      var msgs := st.messages + resp.candidates;
      if resp.functionCalls == [] then (Returns(resp.text), AgentState(st.disk, msgs, n + 1))
      else
        match DispatchAll(st.disk, resp.functionCalls, env)
        case BatchEscaped(m, e) => (Raises(m), AgentState(e, msgs, n + 1))
        case AllReplied(parts, e) => (Returns(None), AgentState(e, msgs + [Content("user", parts)], n + 1))
  }

  /** The driver loop from state `st` after `done` iterations. */
  function Drive(respond: (nat, seq<Content>) -> BackendReply, env: Env, maxIters: nat, st: AgentState, done: nat): (RunOutcome, AgentState)
    requires done <= maxIters
    decreases maxIters - done
  {
    if done + 1 > maxIters then (BudgetExhausted, st)
    else
      var (p, st') := Pass(respond, env, st);
      if Truthy(p) then (Finished(p.value.value), st')
      else Drive(respond, env, maxIters, st', done + 1)
  }

  /** The model service, seen from the agent: each request is recorded with the conversation
      it carried. */
  class Backend {
    const respond: (nat, seq<Content>) -> BackendReply
    var sent: seq<seq<Content>>

    constructor (respond: (nat, seq<Content>) -> BackendReply)
      ensures this.respond == respond && sent == []
    {
      this.respond := respond;
      sent := [];
    }

    /** `client.models.generate_content(contents=...)`. */
    method GenerateContent(contents: seq<Content>) returns (r: BackendReply)
      modifies this
      ensures sent == old(sent) + [contents]
      ensures r == respond(|old(sent)|, contents)
    {
      r := respond(|sent|, contents);
      sent := sent + [contents];
    }
  }

  /** The agent: its conversation, the service, the filesystem its tools work on, the
      dispatcher's configuration and the iteration limit (`MAX_ITERS`). */
  class Agent {
    var messages: seq<Content>
    const backend: Backend
    const fs: FileSystem
    const env: Env
    const maxIters: nat

    /** The conversation starts with the user's prompt. */
    constructor (prompt: string, backend: Backend, fs: FileSystem, env: Env, maxIters: nat)
      ensures messages == [Content("user", [Text(prompt)])]
      ensures this.backend == backend && this.fs == fs && this.env == env && this.maxIters == maxIters
    {
      messages := [Content("user", [Text(prompt)])];
      this.backend := backend;
      this.fs := fs;
      this.env := env;
      this.maxIters := maxIters;
    }

    function State(): AgentState
      reads this, backend, fs
    {
      AgentState(fs.View(), messages, |backend.sent|)
    }

    /** `generate_content(client, messages)`. */
    method GenerateContent() returns (p: PassOutcome)
      modifies this, backend, fs
      ensures (p, State()) == Pass(backend.respond, env, old(State()))
      ensures backend.sent == old(backend.sent) + [old(messages)]
    {
      var reply := backend.GenerateContent(messages);
      if reply.Failed? {
        return Raises(reply.message);
      }
      var response := reply.response;
      var i := 0;
      while i < |response.candidates|
        modifies this
        invariant 0 <= i <= |response.candidates|
        invariant messages == old(messages) + response.candidates[..i]
      {
        messages := messages + [response.candidates[i]];
        i := i + 1;
      }
      assert response.candidates[..i] == response.candidates;
      if response.functionCalls == [] {
        return Returns(response.text);
      }
      var batch := CallAll(fs, response.functionCalls, env);
      match batch
      case Aborted(m) =>
        return Raises(m);
      case Completed(functionResponses) =>
        messages := messages + [Content("user", functionResponses)];
        return Returns(None);
    }

    /** The loop of `main`: a pass per iteration; an exception is reported and the loop goes
      on; a non-empty answer ends it. */
    method Run() returns (outcome: RunOutcome)
      modifies this, backend, fs
      ensures (outcome, State()) == Drive(backend.respond, env, maxIters, old(State()), 0)
    {
      var iters := 0;
      while true
        invariant iters <= maxIters
        invariant Drive(backend.respond, env, maxIters, State(), iters) ==
                  Drive(backend.respond, env, maxIters, old(State()), 0)
        decreases maxIters - iters
      {
        iters := iters + 1;
        if iters > maxIters {
          return BudgetExhausted;
        }
        var p := GenerateContent();
        if Truthy(p) {
          return Finished(p.value.value);
        }
      }
    }
  }

  /** What the loop over one response's function calls yields: every function-response
      part, or the exception that ended it. */
  datatype BatchOutcome = Completed(parts: seq<Part>) | Aborted(message: string)

  /** The loop of `generate_content` over the function calls, on the mutable filesystem. */
  method CallAll(fs: FileSystem, calls: seq<FunctionCall>, env: Env) returns (r: BatchOutcome)
    modifies fs
    ensures var b := DispatchAll(old(fs.View()), calls, env);
      fs.View() == b.disk &&
      (b.AllReplied? ==> r == Completed(b.parts)) &&
      (b.BatchEscaped? ==> r == Aborted(b.message))
  {
    ghost var d0 := fs.View();
    var functionResponses: seq<Part> := [];
    var j := 0;
    while j < |calls|
      invariant 0 <= j <= |calls|
      invariant DispatchAll(d0, calls[..j], env) == AllReplied(functionResponses, fs.View())
    {
      var result := CallFunction(fs, calls[j], env);
      assert calls[..j + 1][..j] == calls[..j];
      if result.Escaped? {
        EscapePersists(d0, calls, j + 1, env);
        return Aborted(result.message);
      }
      // Every reply has exactly one function-response part, so the check for an empty
      // result never fires.
      functionResponses := functionResponses + [result.content.parts[0]];
      j := j + 1;
    }
    assert calls[..j] == calls;
    return Completed(functionResponses);
  }

  /** Once a prefix of the calls lets an exception escape, the batch does. */
  lemma {:induction false} EscapePersists(d: Disk, calls: seq<FunctionCall>, k: nat, env: Env)
    requires k <= |calls|
    requires DispatchAll(d, calls[..k], env).BatchEscaped?
    ensures DispatchAll(d, calls, env) == DispatchAll(d, calls[..k], env)
    decreases |calls| - k
  {
    if k < |calls| {
      var n := |calls|;
      assert calls[..n - 1][..k] == calls[..k];
      EscapePersists(d, calls[..n - 1], k, env);
      assert calls[..n] == calls;
    } else {
      assert calls[..k] == calls;
    }
  }

  // ---------------------------------------------------------------------------
  // One batch of function calls.

  /** A completed batch has one function-response part per call, in call order, each naming
      its call; part `i` is the reply to call `i` on the disk the earlier calls left. */
  lemma BatchInCallOrder(d: Disk, calls: seq<FunctionCall>, env: Env)
    requires DispatchAll(d, calls, env).AllReplied?
    ensures var parts := DispatchAll(d, calls, env).parts;
      |parts| == |calls| &&
      forall i :: 0 <= i < |calls| ==> parts[i].Reply? && parts[i].name == calls[i].name
    ensures var parts := DispatchAll(d, calls, env).parts;
      forall i :: 0 <= i < |calls| ==> ReplyAt(d, calls, env, parts, i)
  {
    var parts := DispatchAll(d, calls, env).parts;
    forall i | 0 <= i < |calls|
      ensures ReplyAt(d, calls, env, parts, i)
    {
      BatchReplyAt(d, calls, env, i);
    }
  }

  /** Part `i` of `parts` is the reply to call `i`, dispatched on the disk the calls before it
      left, after the replies to those calls. */
  ghost predicate ReplyAt(d: Disk, calls: seq<FunctionCall>, env: Env, parts: seq<Part>, i: nat)
    requires i < |calls| && i < |parts|
  {
    var before := DispatchAll(d, calls[..i], env);
    before.AllReplied? && before.parts == parts[..i] &&
    Dispatch(before.disk, calls[i], env).0 == Replied(Content("tool", [parts[i]])) &&
    parts[i].Reply? && parts[i].name == calls[i].name
  }

  lemma {:induction false} BatchReplyAt(d: Disk, calls: seq<FunctionCall>, env: Env, i: nat)
    requires DispatchAll(d, calls, env).AllReplied? && i < |calls|
    ensures ReplyAt(d, calls, env, DispatchAll(d, calls, env).parts, i)
    decreases |calls|
  {
    var n := |calls|;
    var front := calls[..n - 1];
    BatchLast(d, calls, env);
    var parts := DispatchAll(d, calls, env).parts;
    var fparts := DispatchAll(d, front, env).parts;
    if i < n - 1 {
      BatchReplyAt(d, front, env, i);
      assert calls[..i] == front[..i] && front[i] == calls[i];
      assert parts[..i] == fparts[..i] && parts[i] == fparts[i];
    } else {
      assert calls[..i] == front;
      assert parts[..i] == fparts;
    }
  }

  /** The last call of a completed batch: the calls before it completed, and its reply is the
      batch's last part. */
  lemma BatchLast(d: Disk, calls: seq<FunctionCall>, env: Env)
    requires DispatchAll(d, calls, env).AllReplied? && calls != []
    ensures var front := DispatchAll(d, calls[..|calls| - 1], env);
      var parts := DispatchAll(d, calls, env).parts;
      front.AllReplied? && parts == front.parts + [parts[|calls| - 1]] &&
      Dispatch(front.disk, calls[|calls| - 1], env).0 == Replied(Content("tool", [parts[|calls| - 1]])) &&
      parts[|calls| - 1].Reply? && parts[|calls| - 1].name == calls[|calls| - 1].name
  {
    var front := DispatchAll(d, calls[..|calls| - 1], env);
    var r := Dispatch(front.disk, calls[|calls| - 1], env).0;
    assert r.Replied?;
    assert r.content == Content("tool", [r.content.parts[0]]);
  }

  /** A batch lets an exception escape exactly when some call names a tool but carries no
      arguments. */
  lemma {:induction false} BatchEscapesIffBareCall(d: Disk, calls: seq<FunctionCall>, env: Env)
    ensures DispatchAll(d, calls, env).BatchEscaped? <==>
      exists j :: 0 <= j < |calls| && IsTool(calls[j].name) && calls[j].args.None?
    decreases |calls|
  {
    if calls != [] {
      var n := |calls|;
      var front := calls[..n - 1];
      BatchEscapesIffBareCall(d, front, env);
      assert forall j :: 0 <= j < n - 1 ==> front[j] == calls[j];
    }
  }

  /** The first call that names a tool but carries no arguments ends the batch: every call
      before it was dispatched and replied to, the exception is the one copying the absent
      arguments raises, and the disk is as those earlier calls left it. */
  lemma BatchEscapeAt(d: Disk, calls: seq<FunctionCall>, env: Env, j: nat)
    requires j < |calls| && IsTool(calls[j].name) && calls[j].args.None?
    requires forall i :: 0 <= i < j ==> !IsTool(calls[i].name) || calls[i].args.Some?
    ensures DispatchAll(d, calls[..j], env).AllReplied?
    ensures DispatchAll(d, calls, env) == BatchEscaped(NoArgsError, DispatchAll(d, calls[..j], env).disk)
  {
    var front := calls[..j];
    assert forall i :: 0 <= i < j ==> front[i] == calls[i];
    BatchEscapesIffBareCall(d, front, env);
    var upTo := calls[..j + 1];
    assert upTo[..j] == front && upTo[j] == calls[j];
    assert DispatchAll(d, upTo, env) == BatchEscaped(NoArgsError, DispatchAll(d, front, env).disk);
    EscapePersists(d, calls, j + 1, env);
  }

  /** No batch leaves the filesystem inconsistent, given a child process that does not. */
  lemma {:induction false} BatchPreservesValid(d: Disk, calls: seq<FunctionCall>, env: Env)
    requires Valid(d) && ChildKeepsValid(env.run)
    ensures Valid(DispatchAll(d, calls, env).disk)
    decreases |calls|
  {
    if calls != [] {
      var front := calls[..|calls| - 1];
      BatchPreservesValid(d, front, env);
      var b := DispatchAll(d, front, env);
      if b.AllReplied? {
        DispatchPreservesValid(b.disk, calls[|calls| - 1], env);
      }
    }
  }

  // ---------------------------------------------------------------------------
  // One pass.

  /** A pass sends exactly one request and only appends to the conversation. */
  lemma PassAppendOnly(respond: (nat, seq<Content>) -> BackendReply, env: Env, st: AgentState)
    ensures Pass(respond, env, st).1.requests == st.requests + 1
    ensures IsPrefix(st.messages, Pass(respond, env, st).1.messages)
  {
    var st' := Pass(respond, env, st).1;
    assert st'.messages[..|st.messages|] == st.messages;
  }

  /** A response without function calls returns its text, appends the candidates and no tool
      turn, and leaves the filesystem alone. */
  lemma PassWithoutCalls(respond: (nat, seq<Content>) -> BackendReply, env: Env, st: AgentState, resp: ModelResponse)
    requires respond(st.requests, st.messages) == Responded(resp) && resp.functionCalls == []
    ensures Pass(respond, env, st) == (Returns(resp.text), AgentState(st.disk, st.messages + resp.candidates, st.requests + 1))
  {
  }

  /** A response with k >= 1 function calls, none escaping, appends the candidates and then one
      user turn of k function-response parts matching the calls in order; the pass returns
      `None`, so the loop goes on. */
  lemma PassToolTurn(respond: (nat, seq<Content>) -> BackendReply, env: Env, st: AgentState, resp: ModelResponse)
    requires respond(st.requests, st.messages) == Responded(resp) && resp.functionCalls != []
    requires forall j :: 0 <= j < |resp.functionCalls| ==> !IsTool(resp.functionCalls[j].name) || resp.functionCalls[j].args.Some?
    ensures var (p, st') := Pass(respond, env, st);
      var calls := resp.functionCalls;
      p == Returns(None) && !Truthy(p) &&
      |st'.messages| == |st.messages| + |resp.candidates| + 1 &&
      st'.messages[..|st'.messages| - 1] == st.messages + resp.candidates &&
      var turn := st'.messages[|st'.messages| - 1];
      turn.role == "user" && |turn.parts| == |calls| &&
      forall i :: 0 <= i < |calls| ==> turn.parts[i].Reply? && turn.parts[i].name == calls[i].name
    ensures var (p, st') := Pass(respond, env, st);
      var b := DispatchAll(st.disk, resp.functionCalls, env);
      b.AllReplied? && st'.messages[|st'.messages| - 1].parts == b.parts && st'.disk == b.disk
  {
    var calls := resp.functionCalls;
    BatchEscapesIffBareCall(st.disk, calls, env);
    BatchInCallOrder(st.disk, calls, env);
    var st' := Pass(respond, env, st).1;
    assert st'.messages[..|st'.messages| - 1] == st.messages + resp.candidates;
  }

  /** A pass keeps the filesystem consistent, given a child process that does. */
  lemma PassPreservesValid(respond: (nat, seq<Content>) -> BackendReply, env: Env, st: AgentState)
    requires Valid(st.disk) && ChildKeepsValid(env.run)
    ensures Valid(Pass(respond, env, st).1.disk)
  {
    match respond(st.requests, st.messages)
    case Failed(_) =>
    case Responded(resp) =>
      if resp.functionCalls != [] {
        BatchPreservesValid(st.disk, resp.functionCalls, env);
      }
  }

  // ---------------------------------------------------------------------------
  // The driver loop.

  /** The loop sends at most one request per remaining iteration, and exactly that many when
      it stops at the limit; it only appends to the conversation and keeps the filesystem
      consistent when every child process does. */
  lemma {:induction false} DriveBounded(respond: (nat, seq<Content>) -> BackendReply, env: Env, maxIters: nat, st: AgentState, done: nat)
    requires done <= maxIters
    ensures var (outcome, st') := Drive(respond, env, maxIters, st, done);
      st.requests <= st'.requests <= st.requests + (maxIters - done) &&
      (outcome == BudgetExhausted ==> st'.requests == st.requests + (maxIters - done)) &&
      IsPrefix(st.messages, st'.messages) &&
      (Valid(st.disk) && ChildKeepsValid(env.run) ==> Valid(st'.disk))
    decreases maxIters - done
  {
    if done + 1 <= maxIters {
      var (p, st1) := Pass(respond, env, st);
      PassAppendOnly(respond, env, st);
      if Valid(st.disk) && ChildKeepsValid(env.run) { PassPreservesValid(respond, env, st); }
      if !Truthy(p) {
        DriveBounded(respond, env, maxIters, st1, done + 1);
        var st' := Drive(respond, env, maxIters, st1, done + 1).1;
        assert st'.messages[..|st.messages|] == st1.messages[..|st.messages|];
      }
    }
  }

  /** The loop ends with an answer only when a pass returned a non-empty string. */
  lemma {:induction false} DriveAnswerNonEmpty(respond: (nat, seq<Content>) -> BackendReply, env: Env, maxIters: nat, st: AgentState, done: nat)
    requires done <= maxIters
    ensures Drive(respond, env, maxIters, st, done).0.Finished? ==> Drive(respond, env, maxIters, st, done).0.answer != ""
    decreases maxIters - done
  {
    if done + 1 <= maxIters {
      var (p, st1) := Pass(respond, env, st);
      if !Truthy(p) {
        DriveAnswerNonEmpty(respond, env, maxIters, st1, done + 1);
      }
    }
  }

  /** A service whose replies never yield a non-empty answer: each fails, asks for function
      calls, or carries no text or an empty one. */
  ghost predicate NeverAnswers(respond: (nat, seq<Content>) -> BackendReply)
  {
    forall n: nat, c: seq<Content> ::
      respond(n, c).Failed? ||
      respond(n, c).response.functionCalls != [] ||
      respond(n, c).response.text.None? ||
      respond(n, c).response.text == Some("")
  }

  /** Against such a service the loop stops at the limit, after exactly one request per
      iteration: exceptions and empty answers only cost iterations. */
  lemma {:induction false} DriveExhaustsBudget(respond: (nat, seq<Content>) -> BackendReply, env: Env, maxIters: nat, st: AgentState, done: nat)
    requires done <= maxIters
    requires NeverAnswers(respond)
    ensures Drive(respond, env, maxIters, st, done).0 == BudgetExhausted
    ensures Drive(respond, env, maxIters, st, done).1.requests == st.requests + (maxIters - done)
    decreases maxIters - done
  {
    if done + 1 <= maxIters {
      var (p, st1) := Pass(respond, env, st);
      assert !Truthy(p);
      PassAppendOnly(respond, env, st);
      DriveExhaustsBudget(respond, env, maxIters, st1, done + 1);
    }
  }

  /** A first reply with a non-empty text and no function calls ends the loop after one
      request, with that text as the answer. */
  lemma DriveImmediateAnswer(respond: (nat, seq<Content>) -> BackendReply, env: Env, maxIters: nat, st: AgentState,
                             candidates: seq<Content>, t: string)
    requires maxIters >= 1 && t != ""
    requires respond(st.requests, st.messages) == Responded(ModelResponse(candidates, [], Some(t)))
    ensures Drive(respond, env, maxIters, st, 0) ==
      (Finished(t), AgentState(st.disk, st.messages + candidates, st.requests + 1))
  {
  }

  /** A failed request is caught by the loop: the conversation is kept as it was and the
      next iteration starts, one request later. */
  lemma FailedPassContinues(respond: (nat, seq<Content>) -> BackendReply, env: Env, maxIters: nat, st: AgentState,
                            done: nat, m: string)
    requires done < maxIters
    requires respond(st.requests, st.messages) == Failed(m)
    ensures Pass(respond, env, st) == (Raises(m), st.(requests := st.requests + 1))
    ensures Drive(respond, env, maxIters, st, done) == Drive(respond, env, maxIters, st.(requests := st.requests + 1), done + 1)
  {
  }

  /** A pass whose response asks for a call to a tool without arguments raises: the
      candidates are kept, no tool turn is appended, the disk is as the calls before the first
      such call left it, and the loop goes on with the next iteration. */
  lemma BareCallPassContinues(respond: (nat, seq<Content>) -> BackendReply, env: Env, maxIters: nat, st: AgentState,
                              done: nat, resp: ModelResponse, j: nat)
    requires done < maxIters
    requires respond(st.requests, st.messages) == Responded(resp)
    requires j < |resp.functionCalls| && IsTool(resp.functionCalls[j].name) && resp.functionCalls[j].args.None?
    requires forall i :: 0 <= i < j ==> !IsTool(resp.functionCalls[i].name) || resp.functionCalls[i].args.Some?
    ensures var st' := AgentState(DispatchAll(st.disk, resp.functionCalls[..j], env).disk,
                                  st.messages + resp.candidates, st.requests + 1);
      Pass(respond, env, st) == (Raises(NoArgsError), st') &&
      Drive(respond, env, maxIters, st, done) == Drive(respond, env, maxIters, st', done + 1)
  {
    BatchEscapeAt(st.disk, resp.functionCalls, env, j);
  }

  /** With a limit of zero iterations no request is sent. */
  lemma DriveZeroBudget(respond: (nat, seq<Content>) -> BackendReply, env: Env, st: AgentState)
    ensures Drive(respond, env, 0, st, 0) == (BudgetExhausted, st)
  {
  }
}
