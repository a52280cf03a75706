/**
 * src/attotool.rs: `loop_tools_until_finish`, the agent loop. It builds the
 * conversation history, then repeatedly obtains a tool call from the model,
 * records it, runs it, and feeds the result back, until a successful call
 * meets the finish condition or something stops the loop.
 *
 * The model call (`handle_tool_selection`) and the tool run
 * (`handle_tool_execution`) are oracles: the `script` gives, for each
 * iteration in turn, what the two returned. The loop of the source has no
 * bound; here it also ends, with `Exhausted`, when the script runs out.
 * Reading history.yaml and AGENTS.md are the parameters `loaded` and
 * `agentsMd`; writing history.yaml is the out-parameter `saved`.
 */
module AttoTool {
  import opened Wrappers
  import opened Text
  import Yaml
  import ToolHandler
  import Output

  /** The chat messages the history holds. */
  datatype Message = System(content: string) | User(content: string) | Assistant(content: string)

  /** What the two oracles return in one iteration. */
  datatype Turn = Turn(selection: Result<ToolHandler.Selected, string>, execution: Result<string, ToolHandler.LoopError>)

  /** How the loop ended. */
  datatype Exit = Finished | Stopped(error: ToolHandler.LoopError) | Exhausted

  /** The history, the recorded calls and the lines emitted so far. */
  datatype State = State(history: seq<Message>, toolCalls: seq<(string, string)>, lines: seq<string>)

  // ---------------------------------------------------------------------
  // The history the loop starts from

  function AgentsMdMessage(content: string): Message {
    User("[read_file path: 'AGENTS.md']\n" + content)
  }

  /**
   * A continued run: the loaded history, then the input. A fresh run: the
   * AGENTS.md message when enabled and readable (`agentsMd` is its content),
   * then the input.
   */
  function InitialHistory(message: string, continueTask: bool, loaded: seq<Message>, disableAgentsMd: bool,
                          agentsMd: Option<string>): seq<Message> {
    if continueTask then loaded + [User(message)]
    else (if !disableAgentsMd && agentsMd.Some? then [AgentsMdMessage(agentsMd.value)] else []) + [User(message)]
  }

  /**
   * A fresh run starts with at most one message before the input, and it is
   * the AGENTS.md message exactly when that file is enabled and readable; a
   * continued run adds only the input to the loaded history.
   */
  lemma InitialHistoryShape(message: string, continueTask: bool, loaded: seq<Message>, disableAgentsMd: bool,
                            agentsMd: Option<string>)
    ensures var h := InitialHistory(message, continueTask, loaded, disableAgentsMd, agentsMd);
      && h[|h| - 1] == User(message)
      && (continueTask ==> h[..|h| - 1] == loaded)
      && (!continueTask && (disableAgentsMd || agentsMd.None?) ==> h == [User(message)])
      && (!continueTask && !disableAgentsMd && agentsMd.Some? ==>
            h == [User("[read_file path: 'AGENTS.md']\n" + agentsMd.value), User(message)])
  {
    var h := InitialHistory(message, continueTask, loaded, disableAgentsMd, agentsMd);
    if continueTask {
      assert h[..|h| - 1] == loaded;
    }
  }

  // ---------------------------------------------------------------------
  // One iteration

  /** `Stop` returns from the loop, `Finish` breaks out of it, `Continue` goes round again. */
  datatype StepResult = Stop(error: ToolHandler.LoopError, st: State) | Continue(st: State) | Finish(st: State)

  /** The assistant message recorded for a selection: none when its text is blank. */
  function AssistantPart(content: string): seq<Message> {
    if IsBlank(content) then [] else [Assistant(content)]
  }

  /** The history entry for a successful call. */
  function SuccessMessage(tool: string, primary: string, res: string): Message {
    User(Output.Bracketed(tool, primary) + "\n" + res)
  }

  /** The history entry for a failed call. */
  function FailureMessage(tool: string, argsStr: string): Message {
    User("[FAILURE " + tool + " " + argsStr + "]")
  }

  /** One iteration of the loop body on the state before it. */
  function Step(kind: Output.Kind, st: State, turn: Turn, maxToolCalls: nat, planMode: bool,
                toYaml: Yaml.Value -> string): StepResult {
    match turn.selection
    case Err(e) => Stop(ToolHandler.Other(e), st)
    case Ok(sel) =>
      var history := st.history + AssistantPart(sel.assistantContent);
      var toolCalls := st.toolCalls + [(sel.tool, sel.primary)];
      var argsStr := ToolHandler.ComputeArgsStr(sel.args, toYaml);
      var lines := st.lines + Output.ToolCallLines(kind, sel.tool, sel.primary);
      match turn.execution
      case Ok(res) =>
        var next := State(history + [SuccessMessage(sel.tool, sel.primary, res)], toolCalls,
                          lines + Output.ResultLines(kind, sel.tool, sel.primary, res));
        if ToolHandler.FinishCondition(sel.tool, |toolCalls|, maxToolCalls, planMode) then Finish(next)
        else Continue(next)
      case Err(Prompt(p)) => Stop(ToolHandler.Prompt(p), State(history, toolCalls, lines))
      case Err(Other(e)) =>
        Continue(State(history + [FailureMessage(sel.tool, argsStr)], toolCalls,
                       lines + Output.FailureLines(kind, sel.tool, sel.primary, argsStr, e)))
  }

  /** The outcome of the loop: how it ended, the final state, and how many turns it used. */
  datatype RunResult = RunResult(exit: Exit, st: State, consumed: nat)

  /** The loop from turn `i` on, with the summary printed after a normal exit. */
  function RunAt(kind: Output.Kind, script: seq<Turn>, i: nat, st: State, maxToolCalls: nat, planMode: bool,
                 toYaml: Yaml.Value -> string): RunResult
    decreases |script| - i
  {
    if i >= |script| then RunResult(Exhausted, st, i)
    else match Step(kind, st, script[i], maxToolCalls, planMode, toYaml)
      case Stop(e, s) => RunResult(Stopped(e), s, i + 1)
      case Continue(s) => RunAt(kind, script, i + 1, s, maxToolCalls, planMode, toYaml)
      case Finish(s) =>
        RunResult(Finished, State(s.history, s.toolCalls, s.lines + Output.SummaryLines(kind, s.toolCalls)), i + 1)
  }

  // ---------------------------------------------------------------------
  // loop_tools_until_finish

  /**
   * The body of the loop: obtain the selection, record it, announce it, run
   * it and record the outcome. The result says whether the loop returns,
   * breaks or goes round again, and carries the new history and calls.
   */
  method RunTurn(turn: Turn, history0: seq<Message>, toolCalls0: seq<(string, string)>, maxToolCalls: nat,
                 planMode: bool, toYaml: Yaml.Value -> string, output: Output.Output)
    returns (r: StepResult)
    modifies output
    ensures r == Step(output.kind, State(history0, toolCalls0, old(output.lines)), turn, maxToolCalls, planMode, toYaml)
    ensures r.st.lines == output.lines
  {
    var history, toolCalls := history0, toolCalls0;
    if turn.selection.Err? {
      return Stop(ToolHandler.Other(turn.selection.error), State(history, toolCalls, output.lines));
    }
    var sel := turn.selection.value;
    TrimEmptyIffBlank(sel.assistantContent);
    if Trim(sel.assistantContent) != [] {
      history := history + [Assistant(sel.assistantContent)];
    }
    toolCalls := toolCalls + [(sel.tool, sel.primary)];
    assert history == history0 + AssistantPart(sel.assistantContent);
    var argsStr := ToolHandler.ComputeArgsStr(sel.args, toYaml);
    output.PrintToolCall(sel.tool, sel.primary);
    ghost var lines := output.lines;
    match turn.execution {
      case Ok(res) =>
        output.PrintResult(sel.tool, sel.primary, res);
        var prefixedResult := Output.Bracketed(sel.tool, sel.primary) + "\n" + res;
        history := history + [User(prefixedResult)];
        assert output.lines == lines + Output.ResultLines(output.kind, sel.tool, sel.primary, res);
      case Err(Prompt(promptType)) =>
        return Stop(ToolHandler.Prompt(promptType), State(history, toolCalls, output.lines));
      case Err(Other(e)) =>
        output.PrintFailure(sel.tool, sel.primary, argsStr, e);
        var failureMessage := "[FAILURE " + sel.tool + " " + argsStr + "]";
        history := history + [User(failureMessage)];
        assert output.lines == lines + Output.FailureLines(output.kind, sel.tool, sel.primary, argsStr, e);
        return Continue(State(history, toolCalls, output.lines));
    }
    if ToolHandler.FinishCondition(sel.tool, |toolCalls|, maxToolCalls, planMode) {
      return Finish(State(history, toolCalls, output.lines));
    }
    return Continue(State(history, toolCalls, output.lines));
  }

  /**
   * `loop_tools_until_finish`. `toolCalls` starts as the caller's vector; the
   * history file is written (`saved`) only on a normal exit.
   */
  method LoopToolsUntilFinish(message: string, maxToolCalls: nat, planMode: bool, continueTask: bool,
                              loaded: seq<Message>, disableAgentsMd: bool, agentsMd: Option<string>,
                              script: seq<Turn>, toYaml: Yaml.Value -> string,
                              output: Output.Output, toolCalls0: seq<(string, string)>)
    returns (exit: Exit, history: seq<Message>, toolCalls: seq<(string, string)>, saved: Option<seq<Message>>)
    modifies output
    ensures var r := RunAt(output.kind, script, 0,
                           State(InitialHistory(message, continueTask, loaded, disableAgentsMd, agentsMd),
                                 toolCalls0, old(output.lines)),
                           maxToolCalls, planMode, toYaml);
      exit == r.exit && history == r.st.history && toolCalls == r.st.toolCalls && output.lines == r.st.lines
    ensures saved == if exit == Finished then Some(history) else None
  {
    history := [];
    if continueTask {
      history := loaded;
      history := history + [User(message)];
    } else {
      if !disableAgentsMd && agentsMd.Some? {
        var formatted := "[read_file path: 'AGENTS.md']\n" + agentsMd.value;
        history := history + [User(formatted)];
      }
      history := history + [User(message)];
    }
    assert history == InitialHistory(message, continueTask, loaded, disableAgentsMd, agentsMd);
    toolCalls := toolCalls0;
    saved := None;
    ghost var goal := RunAt(output.kind, script, 0, State(history, toolCalls, output.lines),
                            maxToolCalls, planMode, toYaml);
    var finished := false;
    var i := 0;
    while i < |script|
      invariant i <= |script|
      invariant goal == RunAt(output.kind, script, i, State(history, toolCalls, output.lines),
                              maxToolCalls, planMode, toYaml)
      decreases |script| - i
    {
      var step := RunTurn(script[i], history, toolCalls, maxToolCalls, planMode, toYaml, output);
      history, toolCalls := step.st.history, step.st.toolCalls;
      match step {
        case Stop(e, _) =>
          exit := Stopped(e);
          return;
        case Finish(_) =>
          finished := true;
          break;
        case Continue(_) =>
          i := i + 1;
      }
    }
    if finished {
      output.PrintSummary(toolCalls);
      saved := Some(history);
      exit := Finished;
    } else {
      exit := Exhausted;
    }
  }

  // ---------------------------------------------------------------------
  // Facts about one iteration

  /**
   * An iteration that obtains a selection records exactly one call, before
   * and whatever the execution; it adds an assistant message exactly when
   * the assistant text is not blank; then exactly one user message: the
   * result on success, the failure marker on an `Other` error, none on a
   * prompt. A failed selection changes nothing.
   */
  lemma StepRecords(kind: Output.Kind, st: State, turn: Turn, maxToolCalls: nat, planMode: bool,
                    toYaml: Yaml.Value -> string)
    ensures var r := Step(kind, st, turn, maxToolCalls, planMode, toYaml);
      && (turn.selection.Err? ==> r == Stop(ToolHandler.Other(turn.selection.error), st))
      && (turn.selection.Ok? ==>
            var sel := turn.selection.value;
            var h := st.history + AssistantPart(sel.assistantContent);
            && r.st.toolCalls == st.toolCalls + [(sel.tool, sel.primary)]
            && (|AssistantPart(sel.assistantContent)| == 1 <==> Trim(sel.assistantContent) != [])
            && (turn.execution.Ok? ==>
                  r.st.history == h + [User(Output.Bracketed(sel.tool, sel.primary) + "\n" + turn.execution.value)])
            && (turn.execution.Err? && turn.execution.error.Other? ==>
                  r.st.history == h + [User("[FAILURE " + sel.tool + " "
                                            + ToolHandler.ComputeArgsStr(sel.args, toYaml) + "]")])
            && (turn.execution.Err? && turn.execution.error.Prompt? ==> r.st.history == h))
  {
    if turn.selection.Ok? {
      TrimEmptyIffBlank(turn.selection.value.assistantContent);
    }
  }

  /**
   * The finish condition is checked only after a success: a failure goes
   * round again even for a finishing tool or past the budget, and a prompt
   * or a failed selection stops the loop.
   */
  lemma StepControl(kind: Output.Kind, st: State, turn: Turn, maxToolCalls: nat, planMode: bool,
                    toYaml: Yaml.Value -> string)
    ensures var r := Step(kind, st, turn, maxToolCalls, planMode, toYaml);
      && (r.Finish? <==> turn.selection.Ok? && turn.execution.Ok?
                         && ToolHandler.FinishCondition(turn.selection.value.tool, |st.toolCalls| + 1,
                                                        maxToolCalls, planMode))
      && (r.Stop? <==> turn.selection.Err? || (turn.execution.Err? && turn.execution.error.Prompt?))
      && (turn.selection.Ok? && turn.execution.Err? && turn.execution.error.Other? ==> r.Continue?)
      && (turn.selection.Ok? && turn.execution.Err? && turn.execution.error.Prompt? ==>
            r.error == turn.execution.error)
  {
  }

  // ---------------------------------------------------------------------
  // Facts about the whole loop

  /** Each iteration only appends: to the history, to the calls and to the output. */
  lemma StepAppends(kind: Output.Kind, st: State, turn: Turn, maxToolCalls: nat, planMode: bool,
                    toYaml: Yaml.Value -> string)
    ensures var s := Step(kind, st, turn, maxToolCalls, planMode, toYaml).st;
      st.history <= s.history && st.toolCalls <= s.toolCalls && st.lines <= s.lines
  {
  }

  /**
   * The history is append-only: the loop never removes or reorders an entry,
   * and neither the recorded calls nor the emitted lines shrink.
   */
  lemma {:induction false} AppendOnly(kind: Output.Kind, script: seq<Turn>, i: nat, st: State, maxToolCalls: nat,
                                      planMode: bool, toYaml: Yaml.Value -> string)
    ensures var r := RunAt(kind, script, i, st, maxToolCalls, planMode, toYaml);
      && st.history <= r.st.history && st.toolCalls <= r.st.toolCalls && st.lines <= r.st.lines
      && (i <= |script| ==> i <= r.consumed <= |script|)
    decreases |script| - i
  {
    if i < |script| {
      StepAppends(kind, st, script[i], maxToolCalls, planMode, toYaml);
      var s := Step(kind, st, script[i], maxToolCalls, planMode, toYaml).st;
      AppendOnly(kind, script, i + 1, s, maxToolCalls, planMode, toYaml);
    }
  }

  /**
   * A normal exit happens right after a turn whose selection and execution
   * both succeeded and whose call meets the finish condition; the output
   * then ends with the summary of all recorded calls. A stop happens right
   * after a failed selection or a prompt, and the output then holds no summary.
   */
  lemma {:induction false} HowTheLoopEnds(kind: Output.Kind, script: seq<Turn>, i: nat, st: State, maxToolCalls: nat,
                                          planMode: bool, toYaml: Yaml.Value -> string)
    requires i <= |script|
    ensures LoopEnd(kind, script, i, RunAt(kind, script, i, st, maxToolCalls, planMode, toYaml), maxToolCalls, planMode)
    decreases |script| - i
  {
    if i < |script| {
      var sr := Step(kind, st, script[i], maxToolCalls, planMode, toYaml);
      if sr.Finish? {
        FinishEnds(kind, script, i, st, maxToolCalls, planMode, toYaml);
      } else if sr.Stop? {
        StopEnds(kind, script, i, st, maxToolCalls, planMode, toYaml);
      } else {
        var r := RunAt(kind, script, i + 1, sr.st, maxToolCalls, planMode, toYaml);
        HowTheLoopEnds(kind, script, i + 1, sr.st, maxToolCalls, planMode, toYaml);
        LoopEndEarlier(kind, script, i, r, maxToolCalls, planMode);
        assert RunAt(kind, script, i, st, maxToolCalls, planMode, toYaml) == r;
      }
    }
  }

  /**
   * How a run from turn `i` can have ended: a normal exit right after a turn
   * whose selection and execution succeeded and whose call meets the finish
   * condition, with the output ending in the summary; a stop right after a
   * failed selection or a prompt; or the script running out.
   */
  ghost predicate LoopEnd(kind: Output.Kind, script: seq<Turn>, i: nat, r: RunResult, maxToolCalls: nat, planMode: bool) {
    && (r.exit == Finished ==>
          && i < r.consumed <= |script|
          && var last := script[r.consumed - 1];
          && last.selection.Ok? && last.execution.Ok?
          && ToolHandler.FinishCondition(last.selection.value.tool, |r.st.toolCalls|, maxToolCalls, planMode)
          && |r.st.lines| > |Output.SummaryLines(kind, r.st.toolCalls)|
          && r.st.lines[|r.st.lines| - |Output.SummaryLines(kind, r.st.toolCalls)|..]
             == Output.SummaryLines(kind, r.st.toolCalls))
    && (r.exit.Stopped? ==>
          && i < r.consumed <= |script|
          && var last := script[r.consumed - 1];
          (last.selection.Err? && r.exit.error == ToolHandler.Other(last.selection.error))
          || (last.selection.Ok? && last.execution.Err? && last.execution.error.Prompt?
              && r.exit.error == last.execution.error))
    && (r.exit == Exhausted ==> r.consumed == |script|)
  }

  lemma LoopEndEarlier(kind: Output.Kind, script: seq<Turn>, i: nat, r: RunResult, maxToolCalls: nat, planMode: bool)
    requires LoopEnd(kind, script, i + 1, r, maxToolCalls, planMode)
    ensures LoopEnd(kind, script, i, r, maxToolCalls, planMode)
  {
  }

  /** The normal exit after turn `i`. */
  lemma FinishEnds(kind: Output.Kind, script: seq<Turn>, i: nat, st: State, maxToolCalls: nat,
                   planMode: bool, toYaml: Yaml.Value -> string)
    requires i < |script| && Step(kind, st, script[i], maxToolCalls, planMode, toYaml).Finish?
    ensures LoopEnd(kind, script, i, RunAt(kind, script, i, st, maxToolCalls, planMode, toYaml), maxToolCalls, planMode)
  {
    var s := Step(kind, st, script[i], maxToolCalls, planMode, toYaml).st;
    StepControl(kind, st, script[i], maxToolCalls, planMode, toYaml);
    assert |s.toolCalls| == |st.toolCalls| + 1;
    var sum := Output.SummaryLines(kind, s.toolCalls);
    assert |s.lines| >= 1;
    assert (s.lines + sum)[|s.lines + sum| - |sum|..] == sum;
  }

  /**
   * A stop after turn `i`: its selection failed or its call asked a question,
   * and the run leaves the state as that turn left it, so no summary follows.
   */
  lemma StopEnds(kind: Output.Kind, script: seq<Turn>, i: nat, st: State, maxToolCalls: nat,
                 planMode: bool, toYaml: Yaml.Value -> string)
    requires i < |script| && Step(kind, st, script[i], maxToolCalls, planMode, toYaml).Stop?
    ensures LoopEnd(kind, script, i, RunAt(kind, script, i, st, maxToolCalls, planMode, toYaml), maxToolCalls, planMode)
    ensures RunAt(kind, script, i, st, maxToolCalls, planMode, toYaml).st
            == Step(kind, st, script[i], maxToolCalls, planMode, toYaml).st
  {
    StepControl(kind, st, script[i], maxToolCalls, planMode, toYaml);
  }

  /** A turn of plain work: a successful call of a tool that is not a finishing tool. */
  predicate PlainWork(turn: Turn) {
    && turn.selection.Ok? && turn.execution.Ok?
    && turn.selection.value.tool != "finish_task" && turn.selection.value.tool != "finish_planning"
  }

  /**
   * With a budget of `maxToolCalls`, plain work finishes the run after
   * exactly as many turns as the budget has left, with the budget's number
   * of calls recorded.
   */
  lemma {:induction false} BudgetEndsRun(kind: Output.Kind, script: seq<Turn>, i: nat, st: State, maxToolCalls: nat,
                                         planMode: bool, toYaml: Yaml.Value -> string)
    requires 0 < maxToolCalls && |st.toolCalls| < maxToolCalls
    requires i + (maxToolCalls - |st.toolCalls|) <= |script|
    requires forall j :: i <= j < |script| ==> PlainWork(script[j])
    ensures var r := RunAt(kind, script, i, st, maxToolCalls, planMode, toYaml);
      r.exit == Finished && |r.st.toolCalls| == maxToolCalls && r.consumed == i + (maxToolCalls - |st.toolCalls|)
    decreases maxToolCalls - |st.toolCalls|
  {
    StepRecords(kind, st, script[i], maxToolCalls, planMode, toYaml);
    StepControl(kind, st, script[i], maxToolCalls, planMode, toYaml);
    var sr := Step(kind, st, script[i], maxToolCalls, planMode, toYaml);
    if sr.Continue? {
      BudgetEndsRun(kind, script, i + 1, sr.st, maxToolCalls, planMode, toYaml);
    }
  }

  /**
   * With no budget (`max_tool_calls == 0`) a run in which no finishing tool
   * is ever selected never exits normally.
   */
  lemma {:induction false} UnboundedNeverFinishes(kind: Output.Kind, script: seq<Turn>, i: nat, st: State,
                                                  planMode: bool, toYaml: Yaml.Value -> string)
    requires forall j :: i <= j < |script| && script[j].selection.Ok? ==>
               script[j].selection.value.tool != "finish_task" && script[j].selection.value.tool != "finish_planning"
    ensures RunAt(kind, script, i, st, 0, planMode, toYaml).exit != Finished
    decreases |script| - i
  {
    if i < |script| {
      StepControl(kind, st, script[i], 0, planMode, toYaml);
      var sr := Step(kind, st, script[i], 0, planMode, toYaml);
      if sr.Continue? {
        UnboundedNeverFinishes(kind, script, i + 1, sr.st, planMode, toYaml);
      }
    }
  }
}
