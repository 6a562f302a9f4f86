/** The chat assistant: `getChatResponse` assembles a system prompt from the
    student's context, sends it with the student's message, and answers with
    the reply or a fixed apology. */
module Chat {
  import opened Js
  import opened Completions

  const Persona := "You are a helpful AI coding assistant. A student is working on a coding challenge and has a doubt."
  const ClosingInstruction := "\n\nAnswer the student's question concisely and clearly. Focus on explaining concepts and helping them improve their logic."

  /** What the student sees when the endpoint cannot be used. */
  const Apology := "I apologize, but I'm having trouble connecting to the AI brain right now. Please try again in a moment."

  /** The block describing the current challenge. The task is truthy, so
      reading its properties cannot throw. */
  function TaskBlock(currentTask: Value): (r: string)
    ensures |r| > 0
  {
    "\n\nChallenge Title: " + ToStr(Member(currentTask, "title"))
    + "\nChallenge Description: " + ToStr(Member(currentTask, "description"))
  }

  /** The block quoting the student's current code in an untagged fence. */
  function CodeBlock(studentCode: Value): (r: string)
    ensures |r| > 0
  {
    "\n\nStudent's Current Code:\n```\n" + ToStr(studentCode) + "\n```"
  }

  /** `systemPrompt += block` under a condition. */
  function AppendIf(prompt: string, cond: bool, block: string): (r: string)
    ensures cond ==> r == prompt + block
    ensures !cond ==> r == prompt
  {
    if cond then prompt + block else prompt
  }

  /** The system prompt: the persona, the task block if the task is truthy,
      the code block if the code is truthy, then the closing instruction. */
  function SystemPrompt(currentTask: Value, studentCode: Value): string {
    AppendIf(AppendIf(Persona, Truthy(currentTask), TaskBlock(currentTask)),
             Truthy(studentCode), CodeBlock(studentCode))
    + ClosingInstruction
  }

  /** The prompt as the source builds it, by appending to a local string. */
  method BuildSystemPrompt(currentTask: Value, studentCode: Value) returns (systemPrompt: string)
    ensures systemPrompt == SystemPrompt(currentTask, studentCode)
  {
    systemPrompt := Persona;
    if Truthy(currentTask) {
      systemPrompt := systemPrompt + TaskBlock(currentTask);
    }
    assert systemPrompt == AppendIf(Persona, Truthy(currentTask), TaskBlock(currentTask));
    ghost var withTask := systemPrompt;
    if Truthy(studentCode) {
      systemPrompt := systemPrompt + CodeBlock(studentCode);
    }
    assert systemPrompt == AppendIf(withTask, Truthy(studentCode), CodeBlock(studentCode));
    systemPrompt := systemPrompt + ClosingInstruction;
  }

  /** The middle of the prompt, between persona and closing instruction: the
      task block when the task is truthy, then the code block when the code
      is truthy, and nothing else. */
  function Middle(currentTask: Value, studentCode: Value): (r: string)
    ensures SystemPrompt(currentTask, studentCode) == Persona + r + ClosingInstruction
    ensures r == (if Truthy(currentTask) then TaskBlock(currentTask) else "")
               + (if Truthy(studentCode) then CodeBlock(studentCode) else "")
  {
    var t := if Truthy(currentTask) then TaskBlock(currentTask) else "";
    var c := if Truthy(studentCode) then CodeBlock(studentCode) else "";
    assert AppendIf(Persona, Truthy(currentTask), TaskBlock(currentTask)) == Persona + t;
    assert SystemPrompt(currentTask, studentCode) == Persona + t + c + ClosingInstruction;
    Reassociate(Persona, t, c, ClosingInstruction);
    t + c
  }

  /** The prompt always opens with the persona and closes with the closing
      instruction. */
  lemma PromptFrame(currentTask: Value, studentCode: Value)
    ensures var p := SystemPrompt(currentTask, studentCode);
      && |Persona| + |ClosingInstruction| <= |p|
      && p[..|Persona|] == Persona
      && EndsWith(p, ClosingInstruction)
  {
    var m := Middle(currentTask, studentCode);
    Framed(Persona, m, ClosingInstruction);
  }

  /** A truthy task puts its block right after the persona. */
  lemma TaskBlockFollowsPersona(currentTask: Value, studentCode: Value)
    requires Truthy(currentTask)
    ensures var p, b := SystemPrompt(currentTask, studentCode), TaskBlock(currentTask);
      |Persona| + |b| <= |p| && p[|Persona|..|Persona| + |b|] == b
  {
    var b := TaskBlock(currentTask);
    var c := if Truthy(studentCode) then CodeBlock(studentCode) else "";
    assert Middle(currentTask, studentCode) == b + c;
    Reassociate(Persona, b, c, ClosingInstruction);
    IsAtMiddle(Persona, b, c + ClosingInstruction);
  }

  /** A truthy code puts its block right before the closing instruction. */
  lemma CodeBlockPrecedesClosing(currentTask: Value, studentCode: Value)
    requires Truthy(studentCode)
    ensures var p, b := SystemPrompt(currentTask, studentCode), CodeBlock(studentCode);
      |b| + |ClosingInstruction| <= |p|
      && p[|p| - |ClosingInstruction| - |b|..|p| - |ClosingInstruction|] == b
  {
    var b := CodeBlock(studentCode);
    var t := if Truthy(currentTask) then TaskBlock(currentTask) else "";
    assert Middle(currentTask, studentCode) == t + b;
    Reassociate(Persona, t, b, ClosingInstruction);
    IsAtMiddle(Persona + t, b, ClosingInstruction);
  }

  lemma Reassociate(a: string, b: string, c: string, d: string)
    ensures a + (b + c) + d == a + b + c + d == (a + b) + (c + d)
  {
  }

  lemma Framed(a: string, m: string, z: string)
    ensures var p := a + m + z;
      |a| + |z| <= |p| && p[..|a|] == a && EndsWith(p, z)
  {
  }

  lemma IsAtMiddle(a: string, t: string, b: string)
    ensures IsAt(t, a + t + b, |a|)
  {
  }

  /** A falsy task (absent, null, false, 0 or "") contributes nothing: the
      prompt is the one built without a task. The same holds for a falsy
      code, so in particular an empty string adds no code block. */
  lemma FalsyContextIgnored(currentTask: Value, studentCode: Value)
    ensures !Truthy(currentTask) ==> SystemPrompt(currentTask, studentCode) == SystemPrompt(Undefined, studentCode)
    ensures !Truthy(studentCode) ==> SystemPrompt(currentTask, studentCode) == SystemPrompt(currentTask, Undefined)
  {
  }

  /** The prompt is longer than persona plus closing instruction exactly when
      the context holds a truthy task or a truthy code; with neither it is
      those two alone. */
  lemma PromptGrowsIffContext(currentTask: Value, studentCode: Value)
    ensures |SystemPrompt(currentTask, studentCode)| > |Persona| + |ClosingInstruction|
        <==> Truthy(currentTask) || Truthy(studentCode)
    ensures !Truthy(currentTask) && !Truthy(studentCode)
        ==> SystemPrompt(currentTask, studentCode) == Persona + ClosingInstruction
  {
    var m := Middle(currentTask, studentCode);
    assert |m| > 0 <==> Truthy(currentTask) || Truthy(studentCode);
    if m == "" {
      assert Persona + m == Persona;
    }
  }

  /** The default context `{}` gives persona followed by closing instruction. */
  lemma EmptyContextPrompt()
    ensures SystemPrompt(Member(Obj(map[]), "currentTask"), Member(Obj(map[]), "studentCode"))
         == Persona + ClosingInstruction
  {
  }

  /** The request: the system prompt first, then the student's message as
      given. */
  function ChatRequestFor(systemPrompt: string, message: Value): (r: ChatRequest)
    ensures r.model == ModelName && |r.messages| == 2
    ensures r.messages[0] == Message("system", Str(systemPrompt))
    ensures r.messages[1] == Message("user", message)
  {
    ChatRequest(ModelName, [Message("system", Str(systemPrompt)), Message("user", message)])
  }

  /** `getChatResponse(message, context)`. The context defaults to `{}` only
      when `undefined`; destructuring a `null` context throws before the
      request is made, and that is the only way the call can fail. A call
      that fails for any reason gives the apology; otherwise the reply's
      content is returned as is. */
  function GetChatResponse(message: Value, context: Value, endpoint: ChatRequest -> Completion): (r: Result<Value>)
    ensures r.Fail? <==> context.Null?
    ensures !context.Null? ==>
      var ctx := if context.Undefined? then Obj(map[]) else context;
      var reply := endpoint(ChatRequestFor(SystemPrompt(Member(ctx, "currentTask"), Member(ctx, "studentCode")), message));
      && (reply.Failed? ==> r == Ok(Str(Apology)))
      && (reply.Answered? ==> r == Ok(reply.content))
  {
    var ctx := if context.Undefined? then Obj(map[]) else context;
    match Get(ctx, "currentTask")
    case Fail(e) => Fail(e)
    case Ok(currentTask) =>
      var systemPrompt := SystemPrompt(currentTask, Member(ctx, "studentCode"));
      match endpoint(ChatRequestFor(systemPrompt, message))
      case Failed => Ok(Str(Apology))
      case Answered(content) => Ok(content)
  }

  /** When the one request the call sends fails, the answer is the apology,
      whatever the message and context. */
  lemma FailureGivesApology(message: Value, context: Value, endpoint: ChatRequest -> Completion)
    requires !context.Null?
    requires var ctx := if context.Undefined? then Obj(map[]) else context;
      endpoint(ChatRequestFor(SystemPrompt(Member(ctx, "currentTask"), Member(ctx, "studentCode")), message)).Failed?
    ensures GetChatResponse(message, context, endpoint) == Ok(Str(Apology))
  {
  }
}
