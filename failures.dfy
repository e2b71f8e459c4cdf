/** How a run of the script can end. */
module Failures {
  import opened Wrappers

  /** The ways a run stops before the report is complete. */
  datatype Failure =
    | MalformedNote(note: string)   // ValueError: a note that does not split into exactly two parts at ':'
    | NoMatch(game: string)         // no search result for a game: sys.exit(2)
    | MissingContainer(id: string)  // the detail page has no element with this id: AttributeError on None

  datatype Status = Completed | Aborted(failure: Failure)

  /** The process exit status: 0 on success, 2 from the explicit sys.exit(2),
      and 1, Python's status for an uncaught exception, for the other failures. */
  function ExitStatus(status: Status): (code: int)
    ensures code == 0 <==> status.Completed?
    ensures code == 2 <==> status.Aborted? && status.failure.NoMatch?
    ensures code in {0, 1, 2}
  {
    match status
    case Completed => 0
    case Aborted(NoMatch(_)) => 2
    case Aborted(_) => 1
  }

  /** The line get_top_match prints to standard output (not to the report)
      before it exits; the other failures leave only a Python traceback. */
  function Diagnostic(f: Failure): (line: Option<string>)
    ensures line.Some? <==> f.NoMatch?
    ensures f.NoMatch? ==> |line.value| == |f.game| + 24 && line.value[23..|line.value| - 1] == f.game
  {
    match f
    case NoMatch(game) => Some("no item found matching " + game + "\n")
    case _ => None
  }
}
