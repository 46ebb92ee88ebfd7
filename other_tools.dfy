/*
 * The tools whose `call` reaches the network, a shell or the language
 * model. Only their descriptors are modelled; what their `call` returns
 * is an input of the task loop (`TaskWorker.Gateway.call`).
 */

module BrowseTool {
  import opened Strings

  const Name := "Browse Tool"
  const Description := "This tool browses accepts an url and returns the relevant parts of the site in regards to prompt."

  /*
   * The argument description: one `<` placeholder marker per argument,
   * each followed by text free of markers. The text is kept in short
   * pieces, each shown free of `<` on its own.
   */
  const ArgumentPiece0 := "arg1>: The URL to "
  const ArgumentPiece1 := "browse to. "
  const ArgumentText1 := ArgumentPiece0 + ArgumentPiece1
  const ArgumentPiece2 := "arg2>: The original "
  const ArgumentPiece3 := "prompt of the task."
  const ArgumentText2 := ArgumentPiece2 + ArgumentPiece3
  const ArgumentDescription := "<" + ArgumentText1 + "<" + ArgumentText2

  lemma ArgumentPiece0Unmarked() ensures '<' !in ArgumentPiece0 {}
  lemma ArgumentPiece1Unmarked() ensures '<' !in ArgumentPiece1 {}
  lemma ArgumentPiece2Unmarked() ensures '<' !in ArgumentPiece2 {}
  lemma ArgumentPiece3Unmarked() ensures '<' !in ArgumentPiece3 {}

  /** The text after each marker holds no further marker. */
  lemma ArgumentTextsUnmarked()
    ensures '<' !in ArgumentText1
    ensures '<' !in ArgumentText2
  {
    ArgumentPiece0Unmarked();
    ArgumentPiece1Unmarked();
    ArgumentPiece2Unmarked();
    ArgumentPiece3Unmarked();
  }

  /** The description declares two argument placeholders. */
  lemma DeclaredArity()
    ensures Count(ArgumentDescription, '<') == 2
  {
    ArgumentTextsUnmarked();
    CountMarkerThenText("<" + ArgumentText1, '<', ArgumentText1);
    CountMarkerThenText("<" + ArgumentText2, '<', ArgumentText2);
    CountAppend("<" + ArgumentText1, "<" + ArgumentText2, '<');
    assert ArgumentDescription == ("<" + ArgumentText1) + ("<" + ArgumentText2);
  }
}

module GoogleTool {
  import opened Strings

  const Name := "Google Tool"
  const Description := "This tool googles the web and returns the google search result."

  /*
   * The argument description: one `<` placeholder marker per argument,
   * each followed by text free of markers. The text is kept in short
   * pieces, each shown free of `<` on its own.
   */
  const ArgumentPiece0 := "arg1>: The search "
  const ArgumentPiece1 := "term "
  const ArgumentText1 := ArgumentPiece0 + ArgumentPiece1
  const ArgumentPiece2 := "arg2>: The original "
  const ArgumentPiece3 := "prompt of the task."
  const ArgumentText2 := ArgumentPiece2 + ArgumentPiece3
  const ArgumentDescription := "<" + ArgumentText1 + "<" + ArgumentText2

  lemma ArgumentPiece0Unmarked() ensures '<' !in ArgumentPiece0 {}
  lemma ArgumentPiece1Unmarked() ensures '<' !in ArgumentPiece1 {}
  lemma ArgumentPiece2Unmarked() ensures '<' !in ArgumentPiece2 {}
  lemma ArgumentPiece3Unmarked() ensures '<' !in ArgumentPiece3 {}

  /** The text after each marker holds no further marker. */
  lemma ArgumentTextsUnmarked()
    ensures '<' !in ArgumentText1
    ensures '<' !in ArgumentText2
  {
    ArgumentPiece0Unmarked();
    ArgumentPiece1Unmarked();
    ArgumentPiece2Unmarked();
    ArgumentPiece3Unmarked();
  }

  /** The description declares two argument placeholders. */
  lemma DeclaredArity()
    ensures Count(ArgumentDescription, '<') == 2
  {
    ArgumentTextsUnmarked();
    CountMarkerThenText("<" + ArgumentText1, '<', ArgumentText1);
    CountMarkerThenText("<" + ArgumentText2, '<', ArgumentText2);
    CountAppend("<" + ArgumentText1, "<" + ArgumentText2, '<');
    assert ArgumentDescription == ("<" + ArgumentText1) + ("<" + ArgumentText2);
  }
}

module PlanningTool {
  import opened Strings

  const Name := "Task Planning Tool"
  const Description := "This tool takes a complex task and returns a step by step plan how to solve the task. Don't use this tool for simple tasks" +
    " that don't require a lot of planning."

  /*
   * The argument description: one `<` placeholder marker per argument,
   * each followed by text free of markers. The text is kept in short
   * pieces, each shown free of `<` on its own.
   */
  const ArgumentPiece0 := "arg1>: The task to "
  const ArgumentPiece1 := "plan"
  const ArgumentText1 := ArgumentPiece0 + ArgumentPiece1
  const ArgumentDescription := "<" + ArgumentText1

  lemma ArgumentPiece0Unmarked() ensures '<' !in ArgumentPiece0 {}
  lemma ArgumentPiece1Unmarked() ensures '<' !in ArgumentPiece1 {}

  /** The text after each marker holds no further marker. */
  lemma ArgumentTextsUnmarked()
    ensures '<' !in ArgumentText1
  {
    ArgumentPiece0Unmarked();
    ArgumentPiece1Unmarked();
  }

  /** The description declares one argument placeholder. */
  lemma DeclaredArity()
    ensures Count(ArgumentDescription, '<') == 1
  {
    ArgumentTextsUnmarked();
    CountMarkerThenText("<" + ArgumentText1, '<', ArgumentText1);
  }
}

module RunCommandTool {
  import opened Strings

  const Name := "cmd Shell Tool"
  const Description := "This tool executes shell commands (windows)."

  /*
   * The argument description: one `<` placeholder marker per argument,
   * each followed by text free of markers. The text is kept in short
   * pieces, each shown free of `<` on its own.
   */
  const ArgumentPiece0 := "arg1>: The command "
  const ArgumentPiece1 := "to run on the "
  const ArgumentPiece2 := "powershell."
  const ArgumentText1 := ArgumentPiece0 + ArgumentPiece1 + ArgumentPiece2
  const ArgumentDescription := "<" + ArgumentText1

  lemma ArgumentPiece0Unmarked() ensures '<' !in ArgumentPiece0 {}
  lemma ArgumentPiece1Unmarked() ensures '<' !in ArgumentPiece1 {}
  lemma ArgumentPiece2Unmarked() ensures '<' !in ArgumentPiece2 {}

  /** The text after each marker holds no further marker. */
  lemma ArgumentTextsUnmarked()
    ensures '<' !in ArgumentText1
  {
    ArgumentPiece0Unmarked();
    ArgumentPiece1Unmarked();
    ArgumentPiece2Unmarked();
  }

  /** The description declares one argument placeholder. */
  lemma DeclaredArity()
    ensures Count(ArgumentDescription, '<') == 1
  {
    ArgumentTextsUnmarked();
    CountMarkerThenText("<" + ArgumentText1, '<', ArgumentText1);
  }
}

/** The recursive tool: it runs a fresh task loop on the subtask. */
module SubtaskExecutionTool {
  import opened Strings
  import opened ToolTypes

  const Name := "Subtask Execution Tool"
  const Description := "This tool is able to accomplish subtasks."

  /*
   * The argument description: one `<` placeholder marker per argument,
   * each followed by text free of markers. The text is kept in short
   * pieces, each shown free of `<` on its own.
   */
  const ArgumentPiece0 := "arg1>: The subtask "
  const ArgumentPiece1 := "to do"
  const ArgumentText1 := ArgumentPiece0 + ArgumentPiece1
  const ArgumentDescription := "<" + ArgumentText1

  lemma ArgumentPiece0Unmarked() ensures '<' !in ArgumentPiece0 {}
  lemma ArgumentPiece1Unmarked() ensures '<' !in ArgumentPiece1 {}

  /** The text after each marker holds no further marker. */
  lemma ArgumentTextsUnmarked()
    ensures '<' !in ArgumentText1
  {
    ArgumentPiece0Unmarked();
    ArgumentPiece1Unmarked();
  }

  /** The description declares one argument placeholder. */
  lemma DeclaredArity()
    ensures Count(ArgumentDescription, '<') == 1
  {
    ArgumentTextsUnmarked();
    CountMarkerThenText("<" + ArgumentText1, '<', ArgumentText1);
  }

  const Success := "The subtask was completed successfully"

  /**
   * The tool's `call`, for a nested run that resolves. The nested `run`
   * turns every exception into an answer of its own, and that answer is
   * not looked at, so the fallback ToolError of the source is never
   * produced: the result is the success text whatever the subtask was.
   */
  function Call(args: seq<string>): (r: ToolResult)
    ensures r.Text? && r.text == Success
  {
    Text(Success)
  }
}
