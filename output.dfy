/**
 * src/output.rs: what the loop reports about each tool call. `StdoutOutput`
 * prints lines; `TuiOutput` sends them over a channel to the interface. Both
 * are one class here, told apart by `kind`, and what either emits is the
 * sequence `lines`.
 */
module Output {
  import opened Text

  /** `StdoutOutput { tool_call_details }` or `TuiOutput`. */
  datatype Kind = Stdout(toolCallDetails: bool) | Tui

  const SummaryHeader := "--- Task tool usage summary"

  /** `[tool primary]`, the marker of a call in every report. */
  function Bracketed(tool: string, arg: string): string {
    "[" + tool + " " + arg + "]"
  }

  /** The line announcing a call; the same on both sinks. */
  function ToolCallLines(kind: Kind, tool: string, primary: string): seq<string> {
    ["--- " + Bracketed(tool, primary)]
  }

  /** At most 500 characters of the result, behind its marker line. */
  function ResultPreview(tool: string, primary: string, result: string): string {
    "Tool call result: " + Take(Bracketed(tool, primary) + "\n" + result, 500)
  }

  /** The tools whose results the interface shows: the ones that talk to the user. */
  predicate ForwardedToTui(tool: string) {
    tool == "describe_to_user" || tool == "finish_task" || tool == "finish_planning"
  }

  function ResultLines(kind: Kind, tool: string, primary: string, result: string): seq<string> {
    match kind
    case Stdout(details) => if details then [ResultPreview(tool, primary, result)] else []
    case Tui => if ForwardedToTui(tool) then [result] else []
  }

  /** One `[tool arg]` per recorded call, in order. */
  function SummaryEntries(toolCalls: seq<(string, string)>): (r: seq<string>)
    ensures |r| == |toolCalls|
    ensures forall i :: 0 <= i < |toolCalls| ==> r[i] == Bracketed(toolCalls[i].0, toolCalls[i].1)
  {
    seq(|toolCalls|, i requires 0 <= i < |toolCalls| => Bracketed(toolCalls[i].0, toolCalls[i].1))
  }

  function SummaryLines(kind: Kind, toolCalls: seq<(string, string)>): seq<string> {
    [SummaryHeader] + SummaryEntries(toolCalls)
  }

  function FailureLines(kind: Kind, tool: string, primary: string, argsStr: string, error: string): seq<string> {
    match kind
    case Stdout(details) =>
      ["--- " + Bracketed(tool, primary)]
      + (if details then ["Tool call failed: [FAILURE " + tool + " " + argsStr + "]", "Error: " + error] else [])
    case Tui => ["--- " + Bracketed(tool, primary)]
  }

  class Output {
    const kind: Kind
    /** Everything emitted so far, oldest first. */
    var lines: seq<string>

    constructor(kind: Kind)
      ensures this.kind == kind && lines == []
    {
      this.kind := kind;
      lines := [];
    }

    method PrintToolCall(tool: string, primary: string)
      modifies this
      ensures lines == old(lines) + ToolCallLines(kind, tool, primary)
    {
      lines := lines + ["--- " + Bracketed(tool, primary)];
    }

    method PrintResult(tool: string, primary: string, result: string)
      modifies this
      ensures lines == old(lines) + ResultLines(kind, tool, primary, result)
    {
      match kind
      case Stdout(details) =>
        if details {
          var prefixed := Bracketed(tool, primary) + "\n" + result;
          lines := lines + ["Tool call result: " + Take(prefixed, 500)];
        }
      case Tui =>
        if tool == "describe_to_user" || tool == "finish_task" || tool == "finish_planning" {
          lines := lines + [result];
        }
    }

    /** The header, then a loop emitting one line per call. */
    method PrintSummary(toolCalls: seq<(string, string)>)
      modifies this
      ensures lines == old(lines) + SummaryLines(kind, toolCalls)
    {
      lines := lines + [SummaryHeader];
      for i := 0 to |toolCalls|
        invariant lines == old(lines) + [SummaryHeader] + SummaryEntries(toolCalls[..i])
      {
        var (tool, arg) := toolCalls[i];
        assert SummaryEntries(toolCalls[..i + 1]) == SummaryEntries(toolCalls[..i]) + [Bracketed(tool, arg)];
        lines := lines + [Bracketed(tool, arg)];
      }
      assert toolCalls[..|toolCalls|] == toolCalls;
    }

    method PrintFailure(tool: string, primary: string, argsStr: string, error: string)
      modifies this
      ensures lines == old(lines) + FailureLines(kind, tool, primary, argsStr, error)
    {
      lines := lines + ["--- " + Bracketed(tool, primary)];
      if kind.Stdout? && kind.toolCallDetails {
        lines := lines + ["Tool call failed: [FAILURE " + tool + " " + argsStr + "]"];
        lines := lines + ["Error: " + error];
      }
    }
  }

  /**
   * Without details stdout reports no results; with details it prints the
   * marker and the result cut to 500 characters, the whole of it when short.
   */
  lemma StdoutResultPreview(details: bool, tool: string, primary: string, result: string)
    ensures !details ==> ResultLines(Stdout(details), tool, primary, result) == []
    ensures details ==> var ls := ResultLines(Stdout(details), tool, primary, result);
      var prefixed := Bracketed(tool, primary) + "\n" + result;
      && |ls| == 1
      && (|Bracketed(tool, primary)| <= 500 ==> StartsWith(ls[0], "Tool call result: " + Bracketed(tool, primary)))
      && |ls[0]| <= 18 + 500
      && ls[0] <= "Tool call result: " + prefixed
      && (|prefixed| <= 500 ==> ls[0] == "Tool call result: " + prefixed)
  {
    if details {
      var prefixed := Bracketed(tool, primary) + "\n" + result;
      var b := Bracketed(tool, primary);
      var t := Take(prefixed, 500);
      if |b| <= 500 {
        assert t[..|b|] == prefixed[..|b|] == b;
        assert ("Tool call result: " + t)[..18 + |b|] == "Tool call result: " + b;
      }
    }
  }

  /**
   * The interface shows a result only for the tools that talk to the user,
   * and then exactly the result text.
   */
  lemma TuiResultForwarding(tool: string, primary: string, result: string)
    ensures ResultLines(Tui, tool, primary, result) == if ForwardedToTui(tool) then [result] else []
    ensures !ForwardedToTui("read_file") && !ForwardedToTui("execute_shell_command")
  {
  }

  /**
   * Both sinks announce a call and summarise the run alike: the header and
   * then one `[tool arg]` line per recorded call, in order.
   */
  lemma SinksAgree(k1: Kind, k2: Kind, tool: string, primary: string, toolCalls: seq<(string, string)>)
    ensures ToolCallLines(k1, tool, primary) == ToolCallLines(k2, tool, primary) == ["--- " + Bracketed(tool, primary)]
    ensures SummaryLines(k1, toolCalls) == SummaryLines(k2, toolCalls)
    ensures var ls := SummaryLines(k1, toolCalls);
      && |ls| == |toolCalls| + 1 && ls[0] == SummaryHeader
      && forall i :: 0 <= i < |toolCalls| ==> ls[i + 1] == Bracketed(toolCalls[i].0, toolCalls[i].1)
  {
  }

  /**
   * A failure always leads with the call's marker line; stdout with details
   * adds the failure marker and the error, and the interface ignores the error.
   */
  lemma FailureReport(kind: Kind, tool: string, primary: string, argsStr: string, error: string, error': string)
    ensures var ls := FailureLines(kind, tool, primary, argsStr, error);
      && ls[0] == "--- " + Bracketed(tool, primary)
      && (kind == Stdout(true) ==>
            ls == [ls[0], "Tool call failed: [FAILURE " + tool + " " + argsStr + "]", "Error: " + error])
      && (kind != Stdout(true) ==> ls == [ls[0]])
    ensures kind != Stdout(true) ==>
              FailureLines(kind, tool, primary, argsStr, error) == FailureLines(kind, tool, primary, argsStr, error')
  {
  }
}
