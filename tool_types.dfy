/**
 * The capability contract shared by every tool: a tool's `call` resolves to
 * a textual result, to a `ToolError`, or (for a tool declared `void`) to
 * nothing at all.
 */
module ToolTypes {
  /** A typed failure carrying a message; it has no `toString` of its own. */
  datatype ToolError = ToolError(message: string)

  /** What the promise returned by a tool's `call` resolves to. */
  datatype ToolResult = Text(text: string) | Failure(error: ToolError) | Undefined

  /**
   * `arg[0]` as a template literal or a `+` with a string renders it: the
   * first argument, or the text "undefined" for an empty argument list.
   */
  function FirstArgument(args: seq<string>): string {
    if |args| == 0 then "undefined" else args[0]
  }
}
