/**
 * The agent loop of `TaskWorker.run`: ask the language model which tool to
 * use, check the request against the registry, call the tool and record what
 * happened in the knowledge list, until the terminal tool is dispatched or
 * something throws.
 *
 * The language model, the JSON parser, the token counter, the knowledge
 * compressor and the tools that reach the outside world are inputs
 * (`Gateway`), indexed by the iteration they are asked in. A thrown
 * exception is an absent (`None`) answer from the gateway; the loop's catch
 * turns it into `ErrorAnswer`.
 */
module TaskWorker {
  import opened Optional
  import opened Strings
  import opened ToolTypes
  import opened Registry
  import WriteDownThoughtTool
  import FinishedTool
  import SubtaskExecutionTool

  /** Above this many tokens the prompt is replaced by compressed knowledge. */
  const MaxPromptTokens := 4000

  /** What `run` resolves to when anything in an iteration throws. */
  const ErrorAnswer := "An error occured"

  /** The system message of the closing summary request. */
  const SummaryInstruction := "Summarize briefly how this AI accomplished the task"

  /** The fields the loop reads from the parsed reply; `arguments` may be missing. */
  datatype ToolRequest = ToolRequest(tool: string, arguments: Option<seq<string>>, reason: string)

  /**
   * The world outside the loop. The model and the tools may answer
   * differently in each iteration `i`: `chat(i, system, human)` is the
   * task's chat model, `compress(i, text)` is `compressKnowledge` on the
   * newline-joined knowledge, `call(i, tool, args)` is `tool.call(args)`.
   * The others depend on their text alone: `countTokens` is the token
   * counter, `parse` is `JSON.parse`, `errorText` is the text `toString()`
   * gives a ToolError. `None` means the call threw.
   */
  datatype Gateway = Gateway(
    countTokens: string -> Option<nat>,
    compress: (nat, string) -> Option<string>,
    chat: (nat, string, string) -> Option<string>,
    parse: string -> Option<ToolRequest>,
    call: (nat, Tool, seq<string>) -> ToolResult,
    errorText: ToolError -> string)

  /**
   * The gateway runs the tools whose `call` is modelled: the thought tool,
   * the terminal tool and, for nested runs that resolve, the subtask tool.
   * The other tools stay free.
   */
  ghost predicate ActualTools(env: Gateway) {
    forall i: nat, t: Tool, args: seq<string> {:trigger env.call(i, t, args)} ::
      (t.kind == WriteDownThought ==> env.call(i, t, args) == WriteDownThoughtTool.Call(args)) &&
      (t.kind == Finished ==> env.call(i, t, args) == FinishedTool.Call(args)) &&
      (t.kind == SubtaskExecution ==> env.call(i, t, args) == SubtaskExecutionTool.Call(args))
  }

  // ---------------------------------------------------------------------------
  // The texts the loop builds (template literals keep their source indentation)

  const Indent16 := "                "
  const Indent20 := "                    "
  const Indent24 := "                        "

  /** The standing advice of the human message, line by line. */
  const Advice1 := "Do not repeat tool usage with the same or similar arguments. You can use the same tool multiple "
  const Advice2 := "times with different arguments. Otherwise you will be punished. If you still detect that continue"
  const Advice3 := "with the planning tool to give you an idea how to proceed."

  /** What the human message says between the task and the knowledge. */
  const Guidance :=
    "\n" + Indent16 +
    "\n" + Indent20 + Advice1 +
    "\n" + Indent20 + Advice2 +
    "\n" + Indent20 + Advice3 +
    "\n" + Indent16 +
    "\n" + Indent20 + "Results of the tools you already used:" +
    "\n" + Indent20

  /** The human message: the task, the standing advice and the knowledge so far. */
  function HumanPrompt(task: string, knowledge: seq<string>): string {
    "\n" + Indent20 + task + Guidance + Join(knowledge, "__\n__")
  }

  /** The human message shows the task. */
  lemma HumanPromptShowsTask(task: string, knowledge: seq<string>)
    ensures Infix(task, HumanPrompt(task, knowledge))
  {
    var head := "\n" + Indent20;
    var p := HumanPrompt(task, knowledge);
    assert p == head + task + (Guidance + Join(knowledge, "__\n__"));
    assert OccursAt(task, p, |head|);
  }

  /** The human message shows every entry of the knowledge list, unchanged. */
  lemma HumanPromptShowsKnowledge(task: string, knowledge: seq<string>, j: nat)
    requires j < |knowledge|
    ensures Infix(knowledge[j], HumanPrompt(task, knowledge))
  {
    var head := "\n" + Indent20 + task + Guidance;
    JoinHasPart(knowledge, "__\n__", j);
    InfixSurrounded(knowledge[j], Join(knowledge, "__\n__"), head, "");
    assert HumanPrompt(task, knowledge) == head + Join(knowledge, "__\n__") + "";
  }

  const UnknownTool := "I tried to use a tool but an error occured because the tool does not exist: "

  /** The entry recorded for a request naming no registered tool. */
  function UnknownToolEntry(name: string): string {
    "\n" + Indent24 + UnknownTool + name +
    "\n" + Indent24
  }

  const NoArguments := "No arguments specified for tool: "
  const WrongArguments := "Wrong number of arguments for tool: "

  /** The entry recorded for a request that names a tool but is refused before the call. */
  function RejectionEntry(t: Tool, req: ToolRequest, error: string): string {
    "\n" + Indent24 + "I used " + t.name + " " +
    "\n" + Indent24 + "The thougt behind it was: " +
    "\n" + Indent24 + req.reason + " " + Indent16 +
    "\n" + Indent24 + "The tool returned an error: " + error + req.tool +
    "\n" + Indent24
  }

  /** The entry recorded after a call; the arguments appear as `Array.prototype.toString` shows them. */
  function ResultEntry(t: Tool, args: seq<string>, reason: string, result: string): string {
    "\n" + Indent16 + "I used " + t.name + " " + Join(args, ",") + ". " +
    "\n" + Indent16 + "The thougt behind it was: " +
    "\n" + Indent16 + reason + Indent16 +
    "\n" + Indent16 + "Result: " +
    "\n" + Indent16 + result +
    "\n" + Indent16
  }

  /** A result entry shows the tool's name and the result text, unchanged. */
  lemma ResultEntryShows(t: Tool, args: seq<string>, reason: string, result: string)
    ensures Infix(t.name, ResultEntry(t, args, reason, result))
    ensures Infix(result, ResultEntry(t, args, reason, result))
  {
    var e := ResultEntry(t, args, reason, result);
    var nameAt := |"\n" + Indent16 + "I used "|;
    var head := "\n" + Indent16 + "I used " + t.name + " " + Join(args, ",") + ". " +
      "\n" + Indent16 + "The thougt behind it was: " +
      "\n" + Indent16 + reason + Indent16 +
      "\n" + Indent16 + "Result: " +
      "\n" + Indent16;
    assert e == head + result + ("\n" + Indent16);
    assert OccursAt(result, e, |head|);
    assert e[nameAt..nameAt + |t.name|] == t.name;
    assert OccursAt(t.name, e, nameAt);
  }

  /**
   * `result.toString()`: a string is itself, a ToolError gives the gateway's
   * text for it, and `undefined` has no `toString`, so it throws (`None`).
   */
  function ResultText(env: Gateway, result: ToolResult): (text: Option<string>)
    ensures text.None? <==> result.Undefined?
    ensures result.Text? ==> text == Some(result.text)
  {
    match result
    case Text(s) => Some(s)
    case Failure(e) => Some(env.errorText(e))
    case Undefined => None
  }

  // ---------------------------------------------------------------------------
  // One iteration of the loop

  /** A tool call the loop made. */
  datatype Invocation = Invocation(tool: Tool, arguments: seq<string>)

  /**
   * What one iteration does: the human message it sent (none when the
   * compression threw), the call it made, the entry it appended and the
   * answer it returned with, if it returned.
   */
  datatype Iteration = Iteration(sent: Option<string>, invoked: Option<Invocation>, entry: Option<string>, exit: Option<string>)

  /** The iteration that left through the catch before it changed anything. */
  function Thrown(sent: Option<string>): Iteration {
    Iteration(sent, None, None, Some(ErrorAnswer))
  }

  /**
   * The human message of iteration `i`: the rendered prompt, or its
   * compression when it is too long; `None` when counting or compressing threw.
   */
  function Prompt(task: string, knowledge: seq<string>, env: Gateway, i: nat): Option<string> {
    var rendered := HumanPrompt(task, knowledge);
    match env.countTokens(rendered)
    case None => None
    case Some(n) => if n > MaxPromptTokens then env.compress(i, Join(knowledge, "\n")) else Some(rendered)
  }

  /** Resolving and checking a parsed request, then calling and recording. */
  function Dispatch(tools: seq<Tool>, knowledge: seq<string>, env: Gateway, i: nat, sent: string, req: ToolRequest): Iteration {
    match Find(tools, req.tool)
    case None => Iteration(Some(sent), None, Some(UnknownToolEntry(req.tool)), None)
    case Some(t) =>
      match req.arguments
      case None => Iteration(Some(sent), None, Some(RejectionEntry(t, req, NoArguments)), None)
      case Some(args) =>
        if |args| != Arity(t) then
          Iteration(Some(sent), None, Some(RejectionEntry(t, req, WrongArguments)), None)
        else
          var invoked := Some(Invocation(t, args));
          match ResultText(env, env.call(i, t, args))
          case None => Iteration(Some(sent), invoked, None, Some(ErrorAnswer))
          case Some(text) =>
            var entry := ResultEntry(t, args, req.reason, text);
            if t.kind == Finished then
              var summary := env.chat(i, SummaryInstruction, Join(knowledge + [entry], "\n"));
              Iteration(Some(sent), invoked, Some(entry), Some(summary.GetOr(ErrorAnswer)))
            else
              Iteration(Some(sent), invoked, Some(entry), None)
  }

  /** Iteration `i` of the loop, with `system` as the system message. */
  function Iterate(tools: seq<Tool>, system: string, task: string, knowledge: seq<string>, env: Gateway, i: nat): Iteration {
    var sent := Prompt(task, knowledge, env, i);
    if sent.None? then Thrown(None)
    else
      match env.chat(i, system, sent.value)
      case None => Thrown(sent)
      case Some(reply) =>
        match env.parse(StripLineBreaks(reply))
        case None => Thrown(sent)
        case Some(req) => Dispatch(tools, knowledge, env, i, sent.value, req)
  }

  /** The knowledge list after an iteration: its entry, if any, appended. */
  function Record(knowledge: seq<string>, it: Iteration): seq<string> {
    match it.entry
    case None => knowledge
    case Some(e) => knowledge + [e]
  }

  /** What the loop leaves behind: the knowledge list and the answer it resolved to, if any. */
  datatype Outcome = Outcome(knowledge: seq<string>, answer: Option<string>)

  /**
   * Iterations `i` up to, not including, `limit`; `answer` is `None` when
   * the loop has not returned within them.
   */
  function Execute(tools: seq<Tool>, system: string, task: string, knowledge: seq<string>, env: Gateway, i: nat, limit: nat): (r: Outcome)
    ensures knowledge <= r.knowledge
    ensures i <= limit ==> |r.knowledge| <= |knowledge| + (limit - i)
    decreases limit - i
  {
    if i >= limit then Outcome(knowledge, None)
    else
      var it := Iterate(tools, system, task, knowledge, env, i);
      var next := Record(knowledge, it);
      if it.exit.Some? then Outcome(next, it.exit)
      else Execute(tools, system, task, next, env, i + 1, limit)
  }

  // ---------------------------------------------------------------------------
  // Properties of one iteration

  /**
   * Before a request is parsed, anything that throws (counting, compressing,
   * the chat model, the parser) ends the run with `ErrorAnswer` and records nothing.
   */
  lemma IterateReachesDispatch(tools: seq<Tool>, system: string, task: string, knowledge: seq<string>, env: Gateway, i: nat)
    ensures var it := Iterate(tools, system, task, knowledge, env, i);
      var sent := Prompt(task, knowledge, env, i);
      if sent.Some? && env.chat(i, system, sent.value).Some? && env.parse(StripLineBreaks(env.chat(i, system, sent.value).value)).Some? then
        it == Dispatch(tools, knowledge, env, i, sent.value, env.parse(StripLineBreaks(env.chat(i, system, sent.value).value)).value)
      else
        it.invoked.None? && it.entry.None? && it.exit == Some(ErrorAnswer)
  {
  }

  /**
   * The compression guard: the human message sent is the compressed knowledge
   * exactly when the rendered prompt counts more than 4000 tokens, and it is
   * sent without being counted again; a counter that throws sends nothing;
   * the knowledge list itself only gains the iteration's entry.
   */
  lemma IterateCompression(tools: seq<Tool>, system: string, task: string, knowledge: seq<string>, env: Gateway, i: nat)
    ensures var it := Iterate(tools, system, task, knowledge, env, i);
      var rendered := HumanPrompt(task, knowledge);
      var count := env.countTokens(rendered);
      (count.None? ==> it.sent.None? && it.exit == Some(ErrorAnswer)) &&
      (count.Some? && count.value > MaxPromptTokens ==> it.sent == env.compress(i, Join(knowledge, "\n"))) &&
      (count.Some? && count.value <= MaxPromptTokens ==> it.sent == Some(rendered)) &&
      (it.sent.Some? && env.chat(i, system, it.sent.value).None? ==> it.exit == Some(ErrorAnswer)) &&
      knowledge <= Record(knowledge, it) && |Record(knowledge, it)| <= |knowledge| + 1
  {
  }

  /**
   * A request naming no registered tool records exactly one entry, which
   * names the requested tool, calls nothing and continues, whatever its
   * arguments are.
   */
  lemma DispatchUnknownTool(tools: seq<Tool>, knowledge: seq<string>, env: Gateway, i: nat, sent: string, req: ToolRequest)
    requires forall t :: t in tools ==> t.name != req.tool
    ensures var d := Dispatch(tools, knowledge, env, i, sent, req);
      d.invoked.None? && d.exit.None? &&
      Record(knowledge, d) == knowledge + [UnknownToolEntry(req.tool)] &&
      Infix(req.tool, UnknownToolEntry(req.tool))
  {
    var e := UnknownToolEntry(req.tool);
    var k := |"\n" + Indent24 + UnknownTool|;
    assert e[k..k + |req.tool|] == req.tool;
    assert OccursAt(req.tool, e, k);
  }

  /** A request for a registered tool without `arguments` is refused with one entry, before any arity check. */
  lemma DispatchNoArguments(tools: seq<Tool>, knowledge: seq<string>, env: Gateway, i: nat, sent: string, req: ToolRequest)
    requires Find(tools, req.tool).Some?
    requires req.arguments.None?
    ensures var d := Dispatch(tools, knowledge, env, i, sent, req);
      d.invoked.None? && d.exit.None? &&
      Record(knowledge, d) == knowledge + [RejectionEntry(Find(tools, req.tool).value, req, NoArguments)] &&
      Infix(NoArguments + req.tool, RejectionEntry(Find(tools, req.tool).value, req, NoArguments))
  {
    RejectionNamesTool(Find(tools, req.tool).value, req, NoArguments);
  }

  /**
   * A request whose argument count differs from the number of `<` markers in
   * the tool's argument description is refused with one entry.
   */
  lemma DispatchWrongArity(tools: seq<Tool>, knowledge: seq<string>, env: Gateway, i: nat, sent: string, req: ToolRequest)
    requires Find(tools, req.tool).Some?
    requires req.arguments.Some?
    requires |req.arguments.value| != Count(Find(tools, req.tool).value.argumentDescription, '<')
    ensures var d := Dispatch(tools, knowledge, env, i, sent, req);
      d.invoked.None? && d.exit.None? &&
      Record(knowledge, d) == knowledge + [RejectionEntry(Find(tools, req.tool).value, req, WrongArguments)] &&
      Infix(WrongArguments + req.tool, RejectionEntry(Find(tools, req.tool).value, req, WrongArguments))
  {
    RejectionNamesTool(Find(tools, req.tool).value, req, WrongArguments);
  }

  /** A refusal entry ends with the error and the requested tool name. */
  lemma RejectionNamesTool(t: Tool, req: ToolRequest, error: string)
    ensures Infix(error + req.tool, RejectionEntry(t, req, error))
  {
    var e := RejectionEntry(t, req, error);
    var head := "\n" + Indent24 + "I used " + t.name + " " +
      "\n" + Indent24 + "The thougt behind it was: " +
      "\n" + Indent24 + req.reason + " " + Indent16 +
      "\n" + Indent24 + "The tool returned an error: ";
    assert e == head + (error + req.tool) + ("\n" + Indent24);
    assert OccursAt(error + req.tool, e, |head|);
  }

  /**
   * A tool is called exactly when all three guards pass: the name resolves,
   * arguments are given, and their number is the tool's declared arity.
   */
  lemma DispatchInvokesIff(tools: seq<Tool>, knowledge: seq<string>, env: Gateway, i: nat, sent: string, req: ToolRequest)
    ensures var d := Dispatch(tools, knowledge, env, i, sent, req);
      d.invoked.Some? <==>
        Find(tools, req.tool).Some? && req.arguments.Some? &&
        |req.arguments.value| == Count(Find(tools, req.tool).value.argumentDescription, '<')
    ensures var d := Dispatch(tools, knowledge, env, i, sent, req);
      d.invoked.Some? ==> d.invoked == Some(Invocation(Find(tools, req.tool).value, req.arguments.value))
  {
  }

  /**
   * Whatever the called tool produced, a string or a ToolError, is recorded
   * as exactly one entry; only the terminal tool ends the loop after a call
   * that completed.
   */
  lemma DispatchRecordsOutcome(tools: seq<Tool>, knowledge: seq<string>, env: Gateway, i: nat, sent: string, req: ToolRequest)
    requires Dispatch(tools, knowledge, env, i, sent, req).invoked.Some?
    ensures var d := Dispatch(tools, knowledge, env, i, sent, req);
      var call := d.invoked.value;
      var result := env.call(i, call.tool, call.arguments);
      !result.Undefined? ==>
        Record(knowledge, d) == knowledge + [ResultEntry(call.tool, call.arguments, req.reason, ResultText(env, result).value)] &&
        (d.exit.Some? <==> call.tool.kind == Finished)
  {
  }

  /**
   * An iteration returns only with `ErrorAnswer` or right after calling the
   * terminal tool.
   */
  lemma IterateExits(tools: seq<Tool>, system: string, task: string, knowledge: seq<string>, env: Gateway, i: nat)
    ensures var it := Iterate(tools, system, task, knowledge, env, i);
      it.exit.Some? ==> it.exit == Some(ErrorAnswer) || (it.invoked.Some? && it.invoked.value.tool.kind == Finished)
  {
  }

  /**
   * The summary branch is dead: the terminal tool resolves to `undefined`,
   * whose `toString` throws before the branch is reached, so calling it
   * records nothing and ends the run with `ErrorAnswer`.
   */
  lemma FinishedDispatchFails(tools: seq<Tool>, knowledge: seq<string>, env: Gateway, i: nat, sent: string, req: ToolRequest)
    requires ActualTools(env)
    requires Dispatch(tools, knowledge, env, i, sent, req).invoked.Some?
    requires Dispatch(tools, knowledge, env, i, sent, req).invoked.value.tool.kind == Finished
    ensures Dispatch(tools, knowledge, env, i, sent, req).entry.None?
    ensures Dispatch(tools, knowledge, env, i, sent, req).exit == Some(ErrorAnswer)
  {
    var call := Dispatch(tools, knowledge, env, i, sent, req).invoked.value;
    assert env.call(i, call.tool, call.arguments) == FinishedTool.Call(call.arguments);
  }

  /**
   * A well-formed request for the thought tool records the thought behind
   * the fixed prefix and continues.
   */
  lemma DispatchWritesThought(tools: seq<Tool>, knowledge: seq<string>, env: Gateway, i: nat, sent: string, req: ToolRequest, t: Tool, thought: string)
    requires ActualTools(env)
    requires Find(tools, req.tool) == Some(t) && t.kind == WriteDownThought
    requires req.arguments == Some([thought]) && Arity(t) == 1
    ensures var d := Dispatch(tools, knowledge, env, i, sent, req);
      d.exit.None? &&
      Record(knowledge, d) == knowledge + [ResultEntry(t, [thought], req.reason, WriteDownThoughtTool.Prefix + thought)]
  {
    assert env.call(i, t, [thought]) == WriteDownThoughtTool.Call([thought]);
  }

  /**
   * A well-formed request for the subtask tool whose nested run resolves
   * records the success text as one entry and continues.
   */
  lemma DispatchRunsSubtask(tools: seq<Tool>, knowledge: seq<string>, env: Gateway, i: nat, sent: string, req: ToolRequest, t: Tool, subtask: string)
    requires ActualTools(env)
    requires Find(tools, req.tool) == Some(t) && t.kind == SubtaskExecution
    requires req.arguments == Some([subtask]) && Arity(t) == 1
    ensures var d := Dispatch(tools, knowledge, env, i, sent, req);
      d.exit.None? &&
      Record(knowledge, d) == knowledge + [ResultEntry(t, [subtask], req.reason, SubtaskExecutionTool.Success)]
  {
    assert env.call(i, t, [subtask]) == SubtaskExecutionTool.Call([subtask]);
  }

  /** One step of `Execute`: the next iteration, then the rest of the run unless it returned. */
  lemma ExecuteStep(tools: seq<Tool>, system: string, task: string, knowledge: seq<string>, env: Gateway, i: nat, limit: nat)
    requires i < limit
    ensures var it := Iterate(tools, system, task, knowledge, env, i);
      Execute(tools, system, task, knowledge, env, i, limit)
      == if it.exit.Some? then Outcome(Record(knowledge, it), it.exit)
         else Execute(tools, system, task, Record(knowledge, it), env, i + 1, limit)
  {
  }

  /** With the terminal tool as written, no iteration returns anything but `ErrorAnswer`. */
  lemma IterateAnswers(tools: seq<Tool>, system: string, task: string, knowledge: seq<string>, env: Gateway, i: nat)
    requires ActualTools(env)
    ensures Iterate(tools, system, task, knowledge, env, i).exit in {None, Some(ErrorAnswer)}
  {
    var it := Iterate(tools, system, task, knowledge, env, i);
    IterateExits(tools, system, task, knowledge, env, i);
    if it.exit.Some? && it.exit != Some(ErrorAnswer) {
      IterateReachesDispatch(tools, system, task, knowledge, env, i);
      var sent := Prompt(task, knowledge, env, i).value;
      var req := env.parse(StripLineBreaks(env.chat(i, system, sent).value)).value;
      FinishedDispatchFails(tools, knowledge, env, i, sent, req);
    }
  }

  /**
   * With the terminal tool as written, the run never resolves to a summary:
   * within any number of iterations it either keeps going or resolves to
   * `ErrorAnswer`.
   */
  lemma {:induction false} ExecuteAnswers(tools: seq<Tool>, system: string, task: string, knowledge: seq<string>, env: Gateway, i: nat, limit: nat)
    requires ActualTools(env)
    ensures Execute(tools, system, task, knowledge, env, i, limit).answer in {None, Some(ErrorAnswer)}
    decreases limit - i
  {
    if i < limit {
      var it := Iterate(tools, system, task, knowledge, env, i);
      ExecuteStep(tools, system, task, knowledge, env, i, limit);
      IterateAnswers(tools, system, task, knowledge, env, i);
      if it.exit.None? {
        ExecuteAnswers(tools, system, task, Record(knowledge, it), env, i + 1, limit);
      }
    }
  }

  // ---------------------------------------------------------------------------
  // The worker object

  class TaskWorker {
    const task: string
    /** The registry every worker dispatches over, and the system message advertising it. */
    const tools: seq<Tool>
    const system: string
    var acquiredKnowledge: seq<string>

    constructor(task: string)
      ensures this.task == task
      ensures tools == Tools && system == RenderSystemPrompt(tools, Instructions)
      ensures acquiredKnowledge == []
    {
      this.task := task;
      var registry := Tools;
      tools := registry;
      system := RenderSystemPrompt(registry, Instructions);
      acquiredKnowledge := [];
    }

    /**
     * `run`, for at most `fuel` iterations of its endless loop: the answer
     * and the knowledge left behind are those of `Execute` over the registry,
     * and the knowledge only grows.
     */
    method Run(env: Gateway, fuel: nat) returns (answer: Option<string>)
      modifies this
      ensures Outcome(acquiredKnowledge, answer) == Execute(tools, system, task, old(acquiredKnowledge), env, 0, fuel)
      ensures old(acquiredKnowledge) <= acquiredKnowledge
    {
      var i := 0;
      while i < fuel
        invariant i <= fuel
        invariant Execute(tools, system, task, acquiredKnowledge, env, i, fuel)
               == Execute(tools, system, task, old(acquiredKnowledge), env, 0, fuel)
      {
        ghost var before := acquiredKnowledge;
        ghost var it := Iterate(tools, system, task, before, env, i);
        ExecuteStep(tools, system, task, before, env, i, fuel);
        var exit := Step(env, system, i);
        assert acquiredKnowledge == Record(before, it);
        if exit.Some? {
          return exit;
        }
        i := i + 1;
      }
      answer := None;
    }

    /**
     * One pass through the body of the loop: the entry it pushes and the
     * answer it returns with, if it returns, are those of `Iterate`.
     */
    method Step(env: Gateway, systemMessage: string, i: nat) returns (exit: Option<string>)
      modifies this
      ensures acquiredKnowledge == Record(old(acquiredKnowledge), Iterate(tools, systemMessage, task, old(acquiredKnowledge), env, i))
      ensures exit == Iterate(tools, systemMessage, task, old(acquiredKnowledge), env, i).exit
    {
      var humanPrompt := HumanPrompt(task, acquiredKnowledge);
      var tokens := env.countTokens(humanPrompt);
      if tokens.None? {
        return Some(ErrorAnswer);
      }
      if tokens.value > MaxPromptTokens {
        var compressed := env.compress(i, Join(acquiredKnowledge, "\n"));
        if compressed.None? {
          return Some(ErrorAnswer);
        }
        humanPrompt := compressed.value;
      }
      var response := env.chat(i, systemMessage, humanPrompt);
      if response.None? {
        return Some(ErrorAnswer);
      }
      var parsed := env.parse(StripLineBreaks(response.value));
      if parsed.None? {
        return Some(ErrorAnswer);
      }
      var request := parsed.value;
      var tool := Find(tools, request.tool);
      if tool.None? {
        acquiredKnowledge := acquiredKnowledge + [UnknownToolEntry(request.tool)];
        return None;
      }
      if request.arguments.None? {
        acquiredKnowledge := acquiredKnowledge + [RejectionEntry(tool.value, request, NoArguments)];
        return None;
      }
      if |request.arguments.value| != Arity(tool.value) {
        acquiredKnowledge := acquiredKnowledge + [RejectionEntry(tool.value, request, WrongArguments)];
        return None;
      }
      var result := env.call(i, tool.value, request.arguments.value);
      var text := ResultText(env, result);
      if text.None? {
        return Some(ErrorAnswer);
      }
      acquiredKnowledge := acquiredKnowledge + [ResultEntry(tool.value, request.arguments.value, request.reason, text.value)];
      if tool.value.kind == Finished {
        var summary := env.chat(i, SummaryInstruction, Join(acquiredKnowledge, "\n"));
        return Some(summary.GetOr(ErrorAnswer));
      }
      return None;
    }
  }
}
