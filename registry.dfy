/**
 * The fixed tool registry of the task loop and the system prompt that
 * advertises it to the language model.
 */
module Registry {
  import opened Optional
  import opened Strings
  import BrowseTool
  import GoogleTool
  import PlanningTool
  import FinishedTool
  import RunCommandTool
  import WriteDownThoughtTool
  import SubtaskExecutionTool

  /** The tool classes; the loop tells the terminal tool apart by its class. */
  datatype Kind = Browse | Google | Planning | Finished | RunCommand | WriteDownThought | SubtaskExecution

  /** A registered tool instance: its class and the three descriptor strings it reports. */
  datatype Tool = Tool(kind: Kind, name: string, description: string, argumentDescription: string)

  /** The registry, in the order lookup scans it. */
  const Tools: seq<Tool> := [
    Tool(Browse, BrowseTool.Name, BrowseTool.Description, BrowseTool.ArgumentDescription),
    Tool(Google, GoogleTool.Name, GoogleTool.Description, GoogleTool.ArgumentDescription),
    Tool(Planning, PlanningTool.Name, PlanningTool.Description, PlanningTool.ArgumentDescription),
    Tool(Finished, FinishedTool.Name, FinishedTool.Description, FinishedTool.ArgumentDescription),
    Tool(RunCommand, RunCommandTool.Name, RunCommandTool.Description, RunCommandTool.ArgumentDescription),
    Tool(WriteDownThought, WriteDownThoughtTool.Name, WriteDownThoughtTool.Description, WriteDownThoughtTool.ArgumentDescription),
    Tool(SubtaskExecution, SubtaskExecutionTool.Name, SubtaskExecutionTool.Description, SubtaskExecutionTool.ArgumentDescription)
  ]

  /** Each tool class is registered exactly once. */
  lemma KindsRegisteredOnce(k: Kind)
    ensures exists i :: 0 <= i < |Tools| && Tools[i].kind == k
    ensures forall i, j :: 0 <= i < |Tools| && 0 <= j < |Tools| && Tools[i].kind == Tools[j].kind ==> i == j
  {
    match k
    case Browse => assert Tools[0].kind == k;
    case Google => assert Tools[1].kind == k;
    case Planning => assert Tools[2].kind == k;
    case Finished => assert Tools[3].kind == k;
    case RunCommand => assert Tools[4].kind == k;
    case WriteDownThought => assert Tools[5].kind == k;
    case SubtaskExecution => assert Tools[6].kind == k;
  }

  /** No two registered tools share a name, so a name picks out at most one tool. */
  lemma NamesDistinct()
    ensures forall i, j :: 0 <= i < |Tools| && 0 <= j < |Tools| && Tools[i].name == Tools[j].name ==> i == j
  {
  }

  // ---------------------------------------------------------------------------
  // Lookup: tools.find(tool => tool.name() === name)

  /** Position of the first tool in `tools` whose name is exactly `name`. */
  function FindIndex(tools: seq<Tool>, name: string): (r: Option<nat>)
    ensures r.Some? ==> r.value < |tools| && tools[r.value].name == name
    ensures r.Some? ==> forall j :: 0 <= j < r.value ==> tools[j].name != name
    ensures r.None? ==> forall j :: 0 <= j < |tools| ==> tools[j].name != name
  {
    if |tools| == 0 then None
    else if tools[0].name == name then Some(0)
    else
      match FindIndex(tools[1..], name)
      case None => None
      case Some(k) => Some(k + 1)
  }

  /** `tools.find`: the first tool named `name`, or `undefined` when no tool is. */
  function Find(tools: seq<Tool>, name: string): (r: Option<Tool>)
    ensures r.Some? ==> r.value in tools && r.value.name == name
    ensures r.None? <==> forall t :: t in tools ==> t.name != name
  {
    match FindIndex(tools, name)
    case None => None
    case Some(i) => Some(tools[i])
  }

  /** The name a registered tool reports resolves back to that very tool. */
  lemma LookupRegistered(i: nat)
    requires i < |Tools|
    ensures Find(Tools, Tools[i].name) == Some(Tools[i])
  {
    NamesDistinct();
    var found := FindIndex(Tools, Tools[i].name);
    assert found.Some? && found.value == i;
  }

  // ---------------------------------------------------------------------------
  // Arity: argumentDescription().split('<').length - 1

  /** The argument count the loop demands of a request for `t`: the `<` markers it declares. */
  function Arity(t: Tool): (n: nat)
    ensures n == Count(t.argumentDescription, '<')
  {
    SplitLength(t.argumentDescription, '<');
    |Split(t.argumentDescription, '<')| - 1
  }

  /** The browse and search tools take two arguments, every other tool one. */
  lemma ArityOfTools()
    ensures forall i :: 0 <= i < |Tools| ==> Arity(Tools[i]) == (if Tools[i].kind == Browse || Tools[i].kind == Google then 2 else 1)
  {
    BrowseTool.DeclaredArity();
    GoogleTool.DeclaredArity();
    PlanningTool.DeclaredArity();
    FinishedTool.DeclaredArity();
    RunCommandTool.DeclaredArity();
    WriteDownThoughtTool.DeclaredArity();
    SubtaskExecutionTool.DeclaredArity();
  }

  // ---------------------------------------------------------------------------
  // The system prompt

  const Preamble := "\nYou are a Manager AI. You use tools to accomplish tasks. You can use the following tools: \n"

  /** The instructions that follow the tool list, one source line per piece. */
  const Instructions :=
    "You answer ONLY with a json object (corresponding to the tool to use). \n" +
    "The schema of the object is { tool: string, arguments: string[], reason: string }. \n" +
    "You have to always specify the tool, the arguments and the reason. \n" +
    "The value of tool is the name of the tool you want to use.\n" +
    "The value of arguments are the arguments to pass to the tool. You MUST specify ALL arguments! \n" +
    "The value of reason is how you think this tool will help you to accomplish the task. \n" +
    "Do not repeat tool usage with the same or similar arguments. You can use the same tool multiple times with different arguments. \n" +
    "You do not have to answer the question in one go. Gathering knowledge is almost as important as completing the task itself. \n" +
    "You're answer should be the tool that is most likely be an important step on the way to eventually accomplish the task.\n" +
    "After you answer you will receive the result of the tool you used and be able to use another tool... and so on.\n" +
    "\n" +
    "IMPORTANT: Double check that you only answer with a json object exactly as described above. If the user gives you\n" +
    "an empty Results of the tools you already used: -section, you have to start with the planning tool."

  /** The line of a tool block that carries the tool's name. */
  function NameLine(t: Tool): string {
    "\nTool name: " + t.name + "\n"
  }

  /** The block that introduces one tool to the language model. */
  function ToolBlock(t: Tool): string {
    NameLine(t) + "Tool description: " + t.description + "\nTool arguments: " + t.argumentDescription + "\n"
  }

  /** `tools.map(ToolBlock)`. */
  function Blocks(tools: seq<Tool>): (blocks: seq<string>)
    ensures |blocks| == |tools|
    ensures forall i :: 0 <= i < |tools| ==> blocks[i] == ToolBlock(tools[i])
  {
    if |tools| == 0 then [] else [ToolBlock(tools[0])] + Blocks(tools[1..])
  }

  /** The system prompt for a registry: the preamble, the blocks joined by newlines, then the instructions. */
  function RenderSystemPrompt(tools: seq<Tool>, instructions: string): string {
    Preamble + Join(Blocks(tools), "\n") + ". \n\n" + instructions
  }

  /**
   * Every tool of a registry is advertised in its system prompt with its
   * exact name, its description and its argument description.
   */
  lemma Advertised(tools: seq<Tool>, instructions: string, i: nat)
    requires i < |tools|
    ensures Infix(ToolBlock(tools[i]), RenderSystemPrompt(tools, instructions))
    ensures Infix(NameLine(tools[i]), RenderSystemPrompt(tools, instructions))
  {
    var prompt := RenderSystemPrompt(tools, instructions);
    var blocks := Blocks(tools);
    JoinHasPart(blocks, "\n", i);
    InfixSurrounded(blocks[i], Join(blocks, "\n"), Preamble, ". \n\n" + instructions);
    assert prompt == Preamble + Join(blocks, "\n") + (". \n\n" + instructions);
    NameLineStartsBlock(tools[i]);
    InfixTransitive(NameLine(tools[i]), ToolBlock(tools[i]), prompt);
  }

  lemma NameLineStartsBlock(t: Tool)
    ensures Infix(NameLine(t), ToolBlock(t))
  {
    assert OccursAt(NameLine(t), ToolBlock(t), 0);
  }
}
