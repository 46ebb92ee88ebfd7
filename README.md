# taskmaster: the task loop and its tool registry, in Dafny

This project models the agent loop of taskmaster's `TaskWorker`. Each pass of
`run` does the following:

- It renders a human message from the task and the knowledge gathered so far.
- It compresses that knowledge instead when the message counts more than 4000 tokens.
- It asks the chat model which tool to use.
- It strips CR/LF from the reply and parses it as `{ tool, arguments, reason }`.
- It resolves the tool by exact name in a fixed registry of seven tools.
- It refuses, with one recorded entry, a request that names no tool, gives no `arguments`, or gives a number of arguments that differs from the number of `<` markers in the tool's argument description.
- Otherwise it calls the tool, records the result as one entry, and ends only when the called tool is the Task Finished Tool.
- Anything that throws ends the run with "An error occured".

The model also covers:

- the registry and the system prompt that advertises it;
- the Write Down Thought Tool and the Task Finished Tool, both outright;
- the Subtask Execution Tool's result for a nested run that resolves;
- the descriptors of the other four tools.

Modules:

- `Optional` (`optional.dfy`): the missing and `undefined` values of the source.
- `Strings` (`strings.dfy`): `join`, `split` on one character, counting a character, and the `/[\r\n]+/g` replacement, each with a reference definition and lemmas relating the two.
- `ToolTypes` (`tool_types.dfy`): the result a tool's `call` resolves to (text, a `ToolError`, or `undefined`).
- `WriteDownThoughtTool`, `FinishedTool` and the five descriptor-only tool modules (`other_tools.dfy`): names, descriptions, argument descriptions with their declared arity, and the three modelled `call`s.
- `Registry` (`registry.dfy`): the registry in source order, lookup by name, arity, and the system prompt.
- `TaskWorker` (`task_worker.dfy`):
  - `Iterate` and `Execute` are the reference definitions of one pass and of a run.
  - Lemmas state the loop's guards, error paths and append-only knowledge.
  - `class TaskWorker` has the mutable knowledge list. Its loop method `Run` and its body `Step` are proved equal to `Execute` and `Iterate`.

The outside world is the `Gateway` record. It stands for the chat model, the token counter, `compressKnowledge`, `JSON.parse`, the tools' `call`, and the text `toString()` gives a `ToolError`:

- The chat model, `compressKnowledge` and the tools' `call` take the iteration number, so they may answer differently in each pass.
- The token counter, the parser and the ToolError text depend on their text alone.
- A gateway answer of `None` means the call threw, and the loop's catch turns that into "An error occured". Only the ToolError text cannot throw.

The predicate `ActualTools` pins the gateway's calls of the three modelled tools to their definitions. Under it, the summary branch of the loop is dead:

1. The Task Finished Tool's `call` resolves to `undefined`.
2. `result.toString()` therefore throws before the `instanceof FinishedTool` test is reached.
3. So a run never resolves to a summary: `ExecuteAnswers` proves this.

## Model

| member | source | states |
|---|---|---|
| Strings.JoinHasPart | src/taskWorker.ts:23-31 | every part of `parts.join(sep)` occurs unchanged inside the joined text |
| Strings.Join | src/taskWorker.ts:23-31 | no contract of its own; `JoinHasPart`, `JoinOffset` and `SplitJoin` state its properties |
| Strings.JoinOffset | src/taskWorker.ts:23-31 | gives the position at which part `i` starts inside the join: right after the join of the parts before it and one separator, and part `i` stands there |
| Strings.Count | src/taskWorker.ts:136 | no contract of its own; `CountAbsent`, `CountAppend` and `SplitLength` state its properties |
| Strings.CountAbsent | src/taskWorker.ts:136 | a character that does not occur is counted zero times |
| Strings.CountAppend | src/taskWorker.ts:136 | the count of a character in a concatenation is the sum of the counts |
| Strings.CountMarkerThenText | src/taskWorker.ts:136 | a `<` followed by text without `<` counts one marker |
| Strings.Split | src/taskWorker.ts:136 | `split` gives at least one piece, and no piece contains the separator |
| Strings.SplitLength | src/taskWorker.ts:136 | `s.split(c).length - 1` is the number of occurrences of `c` in `s` |
| Strings.SplitJoin | src/taskWorker.ts:136 | joining the pieces of a split with the separator gives the string back |
| Strings.DropLineBreaks | src/taskWorker.ts:118 | the reference result has no CR or LF and is no longer than the input |
| Strings.LineBreakRun | src/taskWorker.ts:118 | a run of CR/LF is all line breaks and is maximal |
| Strings.StripLineBreaks | src/taskWorker.ts:118 | the `/[\r\n]+/g` replacement run by run: its result has no CR or LF and is no longer than the reply; `StripLineBreaksDrops` relates it to the reference removal |
| Strings.StripLineBreaksDrops | src/taskWorker.ts:118 | the run-by-run regex replacement equals removing every CR and LF and keeping all other characters in order; the text handed to `JSON.parse` has no CR or LF |
| Strings.StripLineBreaksKeeps | src/taskWorker.ts:118 | a reply without line breaks reaches the parser unchanged |
| ToolTypes.FirstArgument | src/tools/writeDownThoughtTool.ts:12 | no contract of its own; `WriteDownThoughtTool.Call` states what the rendered `arg[0]` is |
| WriteDownThoughtTool.DeclaredArity | src/tools/writeDownThoughtTool.ts:23 | the argument description holds exactly one `<`, so the arity is 1 |
| WriteDownThoughtTool.Call | src/tools/writeDownThoughtTool.ts:10-18 | the result is always text, never a ToolError; it is the prefix "I had an important thought: " followed by `arg[0]` ("undefined" for no arguments), and its length is the sum of the two |
| FinishedTool.DeclaredArity | src/tools/finishedTool.ts:16-17 | the concatenated argument description holds exactly one `<` |
| FinishedTool.Call | src/tools/finishedTool.ts:19-21 | the result is neither text nor a ToolError: it is `undefined` for every argument list |
| BrowseTool.DeclaredArity | src/tools/browseTool.ts:78 | the argument description holds two `<` markers |
| GoogleTool.DeclaredArity | src/tools/googleTool.ts:16 | the argument description holds two `<` markers |
| PlanningTool.DeclaredArity | src/tools/planningTool.ts:18 | the argument description holds one `<` marker |
| RunCommandTool.DeclaredArity | src/tools/runCommandTool.ts:8 | the argument description holds one `<` marker |
| SubtaskExecutionTool.DeclaredArity | src/tools/taskworkerTool.ts:17 | the argument description holds one `<` marker |
| SubtaskExecutionTool.Call | src/tools/taskworkerTool.ts:19-23 | a nested run that resolves yields the fixed success text, never a ToolError; `TaskWorker.DispatchRunsSubtask` shows the loop recording it |
| Registry.KindsRegisteredOnce | src/taskWorker.ts:18-19 | each of the seven tool classes is registered in `Tools`, and exactly once |
| Registry.NamesDistinct | src/taskWorker.ts:18-19 | no two registered tools share a name, the thought tool's and the finished tool's included |
| Registry.FindIndex | src/taskWorker.ts:120 | gives the first position whose name equals the requested name exactly, or none when no name does |
| Registry.Find | src/taskWorker.ts:120 | a found tool is registered and carries the requested name; nothing is found exactly when no registered tool has that name |
| Registry.LookupRegistered | src/taskWorker.ts:18-20 | every registered tool's name resolves back to that very tool |
| Registry.Arity | src/taskWorker.ts:136 | `argumentDescription().split('<').length - 1` is the number of `<` markers |
| Registry.ArityOfTools | src/taskWorker.ts:18-19 | the browse and search tools take two arguments, every other registered tool one |
| Registry.Blocks | src/taskWorker.ts:23-30 | one block per tool, in registry order |
| Registry.ToolBlock | src/taskWorker.ts:25-29 | no contract of its own; `Advertised` shows each block in the prompt |
| Registry.RenderSystemPrompt | src/taskWorker.ts:21-45 | no contract of its own; `Advertised` states what the prompt shows |
| Registry.Advertised | src/taskWorker.ts:21-45 | every tool's block, with its name, description and argument description, occurs in the system prompt; so does its name line |
| TaskWorker.HumanPrompt | src/taskWorker.ts:93-101 | no contract of its own; `HumanPromptShowsTask` and `HumanPromptShowsKnowledge` state what it shows |
| TaskWorker.HumanPromptShowsTask | src/taskWorker.ts:93-101 | the human message shows the task |
| TaskWorker.HumanPromptShowsKnowledge | src/taskWorker.ts:93-101 | the human message shows every knowledge entry unchanged |
| TaskWorker.UnknownToolEntry | src/taskWorker.ts:122-124 | no contract of its own; `DispatchUnknownTool` shows that it names the requested tool |
| TaskWorker.RejectionEntry | src/taskWorker.ts:128-133 | no contract of its own; `RejectionNamesTool` shows that it holds the error and the requested name (the entry at lines 137-142 has the same shape) |
| TaskWorker.ResultEntry | src/taskWorker.ts:153-159 | no contract of its own; `ResultEntryShows` states what it shows |
| TaskWorker.ResultEntryShows | src/taskWorker.ts:153-159 | a result entry shows the tool's name and the result text unchanged |
| TaskWorker.ResultText | src/taskWorker.ts:158 | `toString()` throws exactly on `undefined`, and a text result is recorded as itself |
| TaskWorker.Execute | src/taskWorker.ts:86-175 | a run only appends to the knowledge list, and at most one entry per iteration |
| TaskWorker.Prompt | src/taskWorker.ts:93-105 | no contract of its own; `IterateCompression` states when it compresses |
| TaskWorker.Dispatch | src/taskWorker.ts:120-169 | no contract of its own; the `Dispatch...` lemmas state each of its branches |
| TaskWorker.Iterate | src/taskWorker.ts:93-173 | no contract of its own; `IterateReachesDispatch`, `IterateCompression`, `IterateExits` and `IterateAnswers` state its properties |
| TaskWorker.IterateReachesDispatch | src/taskWorker.ts:103-118 | a failing token count, compression, chat or parse ends the run with "An error occured" and records and calls nothing; otherwise the pass dispatches the parsed request |
| TaskWorker.IterateCompression | src/taskWorker.ts:93-105 | the message sent is the compressed knowledge exactly when the rendered prompt counts more than 4000 tokens, and it is not counted again; a counter that throws sends nothing and ends the run with "An error occured"; the knowledge list gains at most one entry and keeps every earlier one |
| TaskWorker.DispatchUnknownTool | src/taskWorker.ts:120-126 | an unknown tool name records exactly one entry naming it, calls nothing and continues |
| TaskWorker.DispatchNoArguments | src/taskWorker.ts:127-135 | a found tool without `arguments` records exactly one "No arguments specified" entry naming the tool, calls nothing and continues |
| TaskWorker.DispatchWrongArity | src/taskWorker.ts:136-144 | an argument count different from the number of `<` markers records exactly one "Wrong number of arguments" entry, calls nothing and continues |
| TaskWorker.RejectionNamesTool | src/taskWorker.ts:128-142 | a refusal entry contains the error text followed by the requested tool name |
| TaskWorker.DispatchInvokesIff | src/taskWorker.ts:120-146 | a tool is called if and only if the name resolves, arguments are given and their number is the declared arity; it is called with the requested arguments |
| TaskWorker.DispatchRecordsOutcome | src/taskWorker.ts:146-169 | after a call whose result is text or a ToolError, exactly one result entry is appended, and the pass ends the run exactly when the tool is the Task Finished Tool |
| TaskWorker.IterateExits | src/taskWorker.ts:162-173 | a pass returns only with "An error occured" or right after calling the Task Finished Tool |
| TaskWorker.FinishedDispatchFails | src/taskWorker.ts:153-173 | calling the Task Finished Tool records nothing and ends the run with "An error occured" |
| TaskWorker.DispatchWritesThought | src/taskWorker.ts:146-159 | a well-formed thought request records the prefixed thought as one entry and continues |
| TaskWorker.DispatchRunsSubtask | src/taskWorker.ts:146-159 | a well-formed subtask request whose nested run resolves records the success text as one entry and continues |
| TaskWorker.ExecuteStep | src/taskWorker.ts:92-170 | a run is one pass followed, unless the pass returned, by the rest of the run |
| TaskWorker.IterateAnswers | src/taskWorker.ts:153-173 | with the modelled tools pinned, no pass returns anything but "An error occured" |
| TaskWorker.ExecuteAnswers | src/taskWorker.ts:86-175 | with the modelled tools, a run never resolves to a summary; it keeps going or resolves to "An error occured" |
| TaskWorker.TaskWorker.constructor | src/taskWorker.ts:18-45 | a worker keeps its task, starts with no knowledge, and dispatches over the registry with the system prompt rendered from it |
| TaskWorker.TaskWorker.Run | src/taskWorker.ts:86-175 | the loop leaves the knowledge list and resolves to the answer that `Execute` gives, and the list only grows |
| TaskWorker.TaskWorker.Step | src/taskWorker.ts:93-169 | one pass of the loop body appends the entry and returns the answer that `Iterate` gives |

## Left out

- Chat model, token counter, `compressKnowledge` and `JSON.parse` (src/taskWorker.ts:47-71, 103-104, 116, 118, 167): network and foreign code. They are gateway inputs, and so is whether each of them throws.
- Console and chalk logging (src/taskWorker.ts:111-114, 119, 147-151): output only.
- The shape of the parsed reply: only a missing `arguments` field is modelled. A `tool` or `reason` that is not a string, a `null` or non-array `arguments`, and non-string array elements are not.
- The text that `toString()` gives a ToolError: src/types/Tool.ts declares none, so it is the gateway input `errorText`.
- The bodies of the Browse, Google, Planning and cmd Shell tools: HTTP, a search API, the chat model and a child process with a racing callback. Only their descriptors are modelled, and their results are gateway inputs.
- SubtaskExecutionTool.Call: does not model the nested run it starts or its catch branch. It gives the result of a nested run that resolves; a nested run that never ends, whose call then never returns, is not captured.
- TaskWorker.TaskWorker.Run: runs at most `fuel` passes of the endless `while (true)` loop. An answer of `None` means that no return happened within them.
- Async scheduling: every await is taken to complete in program order.
- src/index.ts: entry-point wiring with a fixed task.
