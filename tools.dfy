/**
 * src/tools.rs: the six tools, how each describes itself to the model, the
 * approval rule for the two tools that change things, and what each tool
 * returns. Running zsh, reading/writing files and reading stdin are the
 * `World` the tools run against.
 */
module Tools {
  import opened Wrappers
  import opened Text
  import Json

  datatype Tool =
    | ExecuteShellCommand
    | ReadFile
    | WriteFile
    | FinishTask
    | AskForClarification
    | DescribeToUser
  {
    function Name(): string {
      match this
      case ExecuteShellCommand => "execute_shell_command"
      case ReadFile => "read_file"
      case WriteFile => "write_file"
      case FinishTask => "finish_task"
      case AskForClarification => "ask_for_clarification"
      case DescribeToUser => "describe_to_user"
    }

    function Description(): string {
      match this
      case ExecuteShellCommand =>
        "Executes a command with arguments on the zsh shell - includes common tools like ls, pwd, curl, cat, mkdir"
      case ReadFile => "Reads a file on the local filesystem"
      case WriteFile => "Writes a file on the local filesystem"
      case FinishTask => "Marks the assigned task as completed, with a completion message"
      case AskForClarification => "Allows the assistant to ask the user for clarification on a point of interest"
      case DescribeToUser => "Provides a description or response to the user"
    }

    /** Parameter names with their types, in order. */
    function Parameters(): (ps: seq<(string, string)>)
      ensures 1 <= |ps| <= 2
      ensures forall i :: 0 <= i < |ps| ==> ps[i].1 == "string"
    {
      match this
      case ExecuteShellCommand => [("command", "string"), ("args", "string")]
      case ReadFile => [("path", "string")]
      case WriteFile => [("path", "string"), ("content", "string")]
      case FinishTask => [("message", "string")]
      case AskForClarification => [("question", "string")]
      case DescribeToUser => [("description", "string")]
    }

    /** `format`: the tool's entry in the system prompt's tool list. */
    function Format(): string {
      FormatEntry(Name(), Description(), Parameters())
    }
  }

  /** One `"  <name>: <type>"` line per parameter. */
  function ParameterLines(ps: seq<(string, string)>): (ls: seq<string>)
    ensures |ls| == |ps|
    ensures forall i :: 0 <= i < |ps| ==> ls[i] == "  " + ps[i].0 + ": " + ps[i].1
  {
    seq(|ps|, i requires 0 <= i < |ps| => "  " + ps[i].0 + ": " + ps[i].1)
  }

  /** The `format!` of `Tool::format`. */
  function FormatEntry(name: string, description: string, ps: seq<(string, string)>): string {
    name + ": '" + description + "'\n" + Join(ParameterLines(ps), "\n")
  }

  /** `get_tools`: the registry, in order. */
  function GetTools(): seq<Tool> {
    [ExecuteShellCommand, ReadFile, WriteFile, FinishTask, AskForClarification, DescribeToUser]
  }

  /** Tool names tell the tools apart, and the registry lists every tool exactly once. */
  lemma NamesIdentifyTools()
    ensures forall a: Tool, b: Tool :: a.Name() == b.Name() ==> a == b
    ensures |GetTools()| == 6
    ensures forall t: Tool :: t in GetTools()
    ensures forall i, j :: 0 <= i < j < |GetTools()| ==> GetTools()[i] != GetTools()[j]
  {
    forall a: Tool, b: Tool | a.Name() == b.Name() ensures a == b {
      var na, nb := a.Name(), b.Name();
      assert na[0] == nb[0] && |na| == |nb|;
    }
    forall t: Tool ensures t in GetTools() {
      match t
      case ExecuteShellCommand => assert GetTools()[0] == t;
      case ReadFile => assert GetTools()[1] == t;
      case WriteFile => assert GetTools()[2] == t;
      case FinishTask => assert GetTools()[3] == t;
      case AskForClarification => assert GetTools()[4] == t;
      case DescribeToUser => assert GetTools()[5] == t;
    }
  }

  /** Looking a tool up by name in the registry (`find` on `name()`). */
  function FromName(name: string): (r: Option<Tool>)
    ensures r.Some? ==> r.value.Name() == name
    ensures r.None? ==> forall t: Tool :: t.Name() != name
  {
    if name == "execute_shell_command" then Some(ExecuteShellCommand)
    else if name == "read_file" then Some(ReadFile)
    else if name == "write_file" then Some(WriteFile)
    else if name == "finish_task" then Some(FinishTask)
    else if name == "ask_for_clarification" then Some(AskForClarification)
    else if name == "describe_to_user" then Some(DescribeToUser)
    else None
  }

  lemma FromNameOfName(t: Tool)
    ensures FromName(t.Name()) == Some(t)
  {
    NamesIdentifyTools();
  }

  /** A tool's entry lists its parameters one per line, in order. */
  lemma FormatEntryLines(name: string, description: string, ps: seq<(string, string)>)
    requires 1 <= |ps| <= 2
    ensures |ps| == 1 ==> FormatEntry(name, description, ps)
                          == name + ": '" + description + "'\n" + "  " + ps[0].0 + ": " + ps[0].1
    ensures |ps| == 2 ==> FormatEntry(name, description, ps)
                          == name + ": '" + description + "'\n"
                             + "  " + ps[0].0 + ": " + ps[0].1 + "\n" + "  " + ps[1].0 + ": " + ps[1].1
  {
    var ls := ParameterLines(ps);
    if |ls| == 2 {
      assert ls[1..] == [ls[1]];
      assert Join(ls, "\n") == ls[0] + "\n" + ls[1];
    }
  }

  /** The shell tool takes `command` then `args`; the write tool `path` then `content`. */
  lemma ParameterOrder()
    ensures ExecuteShellCommand.Parameters() == [("command", "string"), ("args", "string")]
    ensures WriteFile.Parameters() == [("path", "string"), ("content", "string")]
    ensures forall t: Tool :: t != ExecuteShellCommand && t != WriteFile ==> |t.Parameters()| == 1
  {
  }

  // ---------------------------------------------------------------------
  // prompt_approval

  /**
   * The decision of `prompt_approval` on the line the user typed: trimmed
   * and lower-cased, an empty answer approves, otherwise only "y" does.
   */
  function Approves(answer: string): bool {
    var input := Lower(Trim(answer));
    if input == [] then true else input == "y"
  }

  /** Exactly "", "y" and "Y" (around whitespace) approve; so "yes", "n" and anything else refuse. */
  lemma ApprovalRule(answer: string)
    ensures Approves(answer) <==> (Trim(answer) == "" || Trim(answer) == "y" || Trim(answer) == "Y")
  {
    var t := Trim(answer);
    if Lower(t) == "y" {
      assert LowerChar(t[0]) == 'y';
      assert t == [t[0]];
    }
    if t == "Y" {
      assert Lower(t) == [LowerChar('Y')];
    }
  }

  // ---------------------------------------------------------------------
  // execute_*

  /**
   * What the tools reach outside the program: the line read from stdin (the
   * approval answer or the clarification), zsh's stdout and stderr for a
   * command line, and the outcome of reading or writing a path (the error's
   * text on failure).
   */
  datatype World = World(
    stdinLine: string,
    runShell: string -> (string, string),
    readFile: string -> Result<string, string>,
    writeFile: (string, string) -> Option<string>)

  /** The irreversible action a tool call performed, if any. */
  datatype Effect = NoEffect | RanShell(commandLine: string) | WroteFile(path: string, content: string)

  datatype Outcome = Outcome(text: string, effect: Effect)

  function ShellApprovalPrompt(command: string, args: string): string {
    "Do you want to run this command: `" + command + " " + args + "` ? (Y/n): "
  }

  function WriteApprovalPrompt(path: string): string {
    "Do you want to write to file: " + path + "? (Y/n): "
  }

  /** `execute_shell_command` */
  function ExecuteShellCommandTool(args: Json.Value, w: World): Outcome {
    var command := Json.StrArg(args, "command");
    var argsStr := Json.StrArg(args, "args");
    if !Approves(w.stdinLine) then Outcome("Command execution cancelled.", NoEffect)
    else
      var commandLine := command + " " + argsStr;
      var (out, err) := w.runShell(commandLine);
      Outcome(out + (if err != "" then "\nStderr: " + err else ""), RanShell(commandLine))
  }

  /** `execute_read_file` */
  function ExecuteReadFile(args: Json.Value, w: World): Outcome {
    match w.readFile(Json.StrArg(args, "path"))
    case Ok(content) => Outcome(content, NoEffect)
    case Err(e) => Outcome("Error reading file: " + e, NoEffect)
  }

  /** `execute_write_file` */
  function ExecuteWriteFile(args: Json.Value, w: World): Outcome {
    var path := Json.StrArg(args, "path");
    var content := Json.StrArg(args, "content");
    if !Approves(w.stdinLine) then Outcome("File write cancelled.", NoEffect)
    else match w.writeFile(path, content)
      case None => Outcome("File written successfully", WroteFile(path, content))
      case Some(e) => Outcome("Error writing file: " + e, WroteFile(path, content))
  }

  /** `execute_finish_task` */
  function ExecuteFinishTask(args: Json.Value): string {
    "Task completed: " + Json.StrArg(args, "message")
  }

  /** `execute_ask_for_clarification`: the answer line, trimmed. */
  function ExecuteAskForClarification(args: Json.Value, w: World): string {
    Trim(w.stdinLine)
  }

  /** `execute_describe_to_user` */
  function ExecuteDescribeToUser(args: Json.Value): string {
    "Description: " + Json.StrArg(args, "description")
  }

  /** `Tool::execute`: dispatch on the tool. */
  function Execute(t: Tool, args: Json.Value, w: World): Outcome {
    match t
    case ExecuteShellCommand => ExecuteShellCommandTool(args, w)
    case ReadFile => ExecuteReadFile(args, w)
    case WriteFile => ExecuteWriteFile(args, w)
    case FinishTask => Outcome(ExecuteFinishTask(args), NoEffect)
    case AskForClarification => Outcome(ExecuteAskForClarification(args, w), NoEffect)
    case DescribeToUser => Outcome(ExecuteDescribeToUser(args), NoEffect)
  }

  /**
   * Approval gating: only the two mutating tools ever act, and only on an
   * approving answer; declining returns the cancellation text, not an error.
   */
  lemma OnlyApprovedMutationsAct(t: Tool, args: Json.Value, w: World)
    ensures var o := Execute(t, args, w);
      && (o.effect != NoEffect ==> (t == ExecuteShellCommand || t == WriteFile) && Approves(w.stdinLine))
      && (t == ExecuteShellCommand && !Approves(w.stdinLine) ==> o == Outcome("Command execution cancelled.", NoEffect))
      && (t == WriteFile && !Approves(w.stdinLine) ==> o == Outcome("File write cancelled.", NoEffect))
      && (t == ExecuteShellCommand && Approves(w.stdinLine) ==>
            o.effect == RanShell(Json.StrArg(args, "command") + " " + Json.StrArg(args, "args")))
      && (t == WriteFile && Approves(w.stdinLine) ==>
            o.effect == WroteFile(Json.StrArg(args, "path"), Json.StrArg(args, "content")))
  {
  }

  /** Missing or non-string arguments read as "". */
  lemma MissingArgumentsAreEmpty(args: Json.Value, key: string)
    requires !args.Object? || !Json.Index(args, key).String?
    ensures Json.StrArg(args, key) == ""
  {
  }

  /** The texts the informational tools return; file errors are results, not failures. */
  lemma ResultTexts(args: Json.Value, w: World)
    ensures StartsWith(ExecuteFinishTask(args), "Task completed: ")
    ensures StartsWith(ExecuteDescribeToUser(args), "Description: ")
    ensures w.readFile(Json.StrArg(args, "path")).Err? ==>
              StartsWith(ExecuteReadFile(args, w).text, "Error reading file: ")
    ensures Approves(w.stdinLine) && w.writeFile(Json.StrArg(args, "path"), Json.StrArg(args, "content")).Some? ==>
              StartsWith(ExecuteWriteFile(args, w).text, "Error writing file: ")
    ensures ExecuteFinishTask(Json.Null) == "Task completed: "
  {
    StartsWithConcat("Task completed: ", Json.StrArg(args, "message"));
    StartsWithConcat("Description: ", Json.StrArg(args, "description"));
    var path := Json.StrArg(args, "path");
    var read := w.readFile(path);
    if read.Err? {
      assert ExecuteReadFile(args, w).text == "Error reading file: " + read.error;
      StartsWithConcat("Error reading file: ", read.error);
    }
    var written := w.writeFile(path, Json.StrArg(args, "content"));
    if Approves(w.stdinLine) && written.Some? {
      assert ExecuteWriteFile(args, w).text == "Error writing file: " + written.value;
      StartsWithConcat("Error writing file: ", written.value);
    }
  }
}
