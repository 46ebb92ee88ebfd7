/** The terminal tool: the loop recognises it by its type, not its name. */
module FinishedTool {
  import opened Strings
  import opened ToolTypes

  const Name := "Task Finished Tool"
  const Description := "This tool must only be used if the task is entirely done. The task is done when the Subtask" +
    "Execution Tool has completed a tutorial step by step proposed by the Planning Tool."

  /*
   * The argument description: one `<` placeholder marker per argument,
   * each followed by text free of markers. The text is kept in short
   * pieces, each shown free of `<` on its own.
   */
  const ArgumentPiece0 := "arg1>: If the task "
  const ArgumentPiece1 := "was to answer a "
  const ArgumentPiece2 := "question, this is "
  const ArgumentPiece3 := "the answer. If the "
  const ArgumentPiece4 := "task was a command, "
  const ArgumentPiece5 := "this should be an "
  const ArgumentPiece6 := "empty string."
  const ArgumentText1 := ArgumentPiece0 + ArgumentPiece1 + ArgumentPiece2 + ArgumentPiece3 + ArgumentPiece4 + ArgumentPiece5 + ArgumentPiece6
  const ArgumentDescription := "<" + ArgumentText1

  lemma ArgumentPiece0Unmarked() ensures '<' !in ArgumentPiece0 {}
  lemma ArgumentPiece1Unmarked() ensures '<' !in ArgumentPiece1 {}
  lemma ArgumentPiece2Unmarked() ensures '<' !in ArgumentPiece2 {}
  lemma ArgumentPiece3Unmarked() ensures '<' !in ArgumentPiece3 {}
  lemma ArgumentPiece4Unmarked() ensures '<' !in ArgumentPiece4 {}
  lemma ArgumentPiece5Unmarked() ensures '<' !in ArgumentPiece5 {}
  lemma ArgumentPiece6Unmarked() ensures '<' !in ArgumentPiece6 {}

  /** The text after each marker holds no further marker. */
  lemma ArgumentTextsUnmarked()
    ensures '<' !in ArgumentText1
  {
    ArgumentPiece0Unmarked();
    ArgumentPiece1Unmarked();
    ArgumentPiece2Unmarked();
    ArgumentPiece3Unmarked();
    ArgumentPiece4Unmarked();
    ArgumentPiece5Unmarked();
    ArgumentPiece6Unmarked();
  }

  /** The description declares one argument placeholder. */
  lemma DeclaredArity()
    ensures Count(ArgumentDescription, '<') == 1
  {
    ArgumentTextsUnmarked();
    CountMarkerThenText("<" + ArgumentText1, '<', ArgumentText1);
  }

  /** The tool's `call`: it only logs, so its promise resolves to `undefined`. */
  function Call(args: seq<string>): (r: ToolResult)
    ensures !r.Text? && !r.Failure?
  {
    Undefined
  }
}
