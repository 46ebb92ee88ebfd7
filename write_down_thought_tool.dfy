/** The tool that records a thought in the transcript; it performs no I/O. */
module WriteDownThoughtTool {
  import opened Strings
  import opened ToolTypes

  const Name := "Write Down Thought Tool"
  const Description := "This tool browses accepts an important thought and writes it down so it won't be forgotten"

  /*
   * The argument description: one `<` placeholder marker per argument,
   * each followed by text free of markers. The text is kept in short
   * pieces, each shown free of `<` on its own.
   */
  const ArgumentPiece0 := "arg1>: The thought "
  const ArgumentPiece1 := "to write down."
  const ArgumentText1 := ArgumentPiece0 + ArgumentPiece1
  const ArgumentDescription := "<" + ArgumentText1

  lemma ArgumentPiece0Unmarked() ensures '<' !in ArgumentPiece0 {}
  lemma ArgumentPiece1Unmarked() ensures '<' !in ArgumentPiece1 {}

  /** The text after each marker holds no further marker. */
  lemma ArgumentTextsUnmarked()
    ensures '<' !in ArgumentText1
  {
    ArgumentPiece0Unmarked();
    ArgumentPiece1Unmarked();
  }

  /** The description declares one argument placeholder. */
  lemma DeclaredArity()
    ensures Count(ArgumentDescription, '<') == 1
  {
    ArgumentTextsUnmarked();
    CountMarkerThenText("<" + ArgumentText1, '<', ArgumentText1);
  }

  /** The fixed text every result starts with. */
  const Prefix := "I had an important thought: "

  /**
   * The tool's `call`: the prefix followed by the first argument. The
   * concatenation cannot throw, so the fallback branch of the source is
   * never taken and no ToolError is ever produced.
   */
  function Call(args: seq<string>): (r: ToolResult)
    ensures r.Text?
    ensures |r.text| == |Prefix| + |FirstArgument(args)|
    ensures r.text[..|Prefix|] == Prefix
    ensures r.text[|Prefix|..] == FirstArgument(args)
  {
    Text(Prefix + FirstArgument(args))
  }
}
