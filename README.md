# attotool in Dafny

attotool is a small command-line coding agent. Its loop works like this:

- It sends the conversation to a chat-completion model.
- It reads a single tool call out of the reply. The reply is YAML, or JSON in two layouts.
- It runs the tool locally. The tools are: a zsh command, reading a file, writing a file, finishing the task, asking for clarification, and describing something to the user.
- It appends the call and its result to the history and asks again.
- It stops when a finishing tool succeeds or the call budget is spent.

The agent prints its progress either to stdout or to a terminal interface. That interface runs the loop in the background and asks the user to approve or clarify.

This project models that core and proves properties of the model:

| module (file) | source | what it models |
|---|---|---|
| `AttoTool` (attotool.dfy) | src/attotool.rs | the agent loop `loop_tools_until_finish`: the loop body is the method `RunTurn`, the whole loop is `LoopToolsUntilFinish`, and the function `RunAt` specifies the run |
| `ToolHandler` (tool_handler.dfy) | src/tool_handler.rs | the retry loop and fallback of `choose_tool`; reading the call in `handle_tool_selection`; tool lookup; `compute_args_str`; the finish rule |
| `YamlParsing` (yaml_parsing.dfy) | src/yaml_parsing.rs | `merge_yaml` (a loop of inserts), system-prompt assembly, and normalising a reply to at most one entry with a retry on the part before the first blank line |
| `Tools` (tools.dfy) | src/tools.rs | the six tools, their self-description, the approval rule, and what each `execute_*` returns against a `World` of stdin, shell and files |
| `ResponseFormats` (response_formats.dfy) | src/response_formats.rs | the format names, YAML-to-JSON conversion (recursive, with loops and early error returns), the three reply parsers, and the JSON schema request |
| `Output` (output.dfy) | src/output.rs | the two `Output` sinks, as one class whose `lines` field is everything emitted so far |
| `App` (app.dfy) | src/app.rs | the event handling of `App::run`, as a class with one method per event; each method is specified by a transition function on `AppState` |

Helper modules:

- `Wrappers`: Option and Result.
- `Text`: the Rust string operations used, such as `trim`, `to_lowercase`, `find`, `replace`, `take` and `join`.
- `OrderedMap`: an insertion-ordered map as a sequence of pairs, with `IndexMap` insert semantics. Re-inserting a key keeps its position.
- `Yaml` and `Json`: the two value types.

Everything outside the program is a parameter:

- The model's reply to each request is `reply`. The same request is sent on every attempt.
- Text parsing (`serde_yaml`/`serde_json` `from_str`) is `parse`, `parseYaml` and `parseJson`.
- `serde_yaml::to_string` is `toYaml`.
- The primary-argument key of a tool is `primaryKey`.
- Stdin, zsh and the file system are the `World`.
- The contents of AGENTS.md and history.yaml are inputs.
- What the loop controller's two oracles return in each iteration is a `script` of turns.

## Model

| member | source | states |
|---|---|---|
| Tools.Tool.Parameters | src/tools.rs:47-68 | every tool has one or two parameters, and all are typed `string` |
| Tools.FormatEntryLines | src/tools.rs:91-99 | a tool's entry is `name: 'description'` and then its parameter lines, one per line, written out for one and for two parameters |
| Tools.NamesIdentifyTools | src/tools.rs:202-211 | the six names are pairwise distinct, so a name identifies its tool; the registry has six entries, lists every tool, and has no repeats |
| Tools.FromName | src/tool_handler.rs:160-163 | a lookup by name returns the tool of that name; it returns none exactly when no tool has that name |
| Tools.FromNameOfName | src/tool_handler.rs:160-161 | looking up a tool's own name finds that tool |
| Tools.ParameterOrder | src/tools.rs:49-57 | the shell tool takes `command` then `args`, the write tool takes `path` then `content`, and every other tool takes one parameter |
| Tools.ApprovalRule | src/tools.rs:107-111 | an answer approves exactly when, after trimming, it is empty, `y` or `Y`; so `yes` and `n` refuse |
| Tools.OnlyApprovedMutationsAct | src/tools.rs:114-171 | only the shell and write tools have an effect, and only on an approving answer; a refusal returns the cancellation text, not an error; an approved call runs `command args` or writes `content` to `path` |
| Tools.MissingArgumentsAreEmpty | src/tools.rs:118-119 | a missing or non-string argument reads as `""` |
| Tools.ResultTexts | src/tools.rs:144-200 | finishing returns `Task completed: <message>` and describing returns `Description: <description>`; read and write errors are Ok texts starting `Error reading file: ` and `Error writing file: ` |
| YamlParsing.MergeYaml | src/yaml_parsing.rs:33-46 | the loop inserts the user's pairs into a copy of the base one by one; the result equals `Merged`, which the lemmas below characterise |
| YamlParsing.InsertAllKeys | src/yaml_parsing.rs:40-42 | after the inserts, the base keys are still first and in their order, and the keys are exactly the base keys plus the user keys |
| YamlParsing.InsertAllGet | src/yaml_parsing.rs:40-42 | after the inserts, a key has the user's value if the user has it, and otherwise the base value |
| YamlParsing.InsertAllKeepsUnique | src/yaml_parsing.rs:40-42 | inserting keeps the keys distinct |
| YamlParsing.MergeOverrides | src/yaml_parsing.rs:37-45 | merging two mappings keeps every base key in place and adds every user key, the user's value winning on a shared key |
| YamlParsing.MergeKeepsBase | src/yaml_parsing.rs:37-45 | when either side is not a mapping, or the user mapping is empty, the merge is the base itself |
| YamlParsing.AssembleIsJoin | src/yaml_parsing.rs:70-71 | the prompt template is its five parts joined by `"\n\n"`, with the directory, AGENTS.md and plan texts run together as the third part |
| YamlParsing.PromptIsJoinedSections | src/yaml_parsing.rs:48-84 | the system prompt is role_and_format, task, current_dir+agents_md+plan_mode, tools and examples, joined by blank lines in that order |
| YamlParsing.MissingFieldIsEmpty | src/yaml_parsing.rs:72-81 | a missing or non-string field contributes `""` |
| YamlParsing.PromptSectionContents | src/yaml_parsing.rs:55-81 | no `{}` is left in the directory and tools sections; agents_md text appears only when enabled and the file exists; plan text appears only in plan mode; examples lose their leading newlines |
| YamlParsing.UserFieldWins | src/yaml_parsing.rs:106-112 | a field the user's configuration sets replaces the built-in text |
| YamlParsing.ParseAndNormalizeYaml | src/yaml_parsing.rs:122-146 | a mapping with more than one entry becomes its first entry, a smaller one is returned unchanged, and anything else is `Err("Invalid YAML")` |
| YamlParsing.BeforeBlankLine | src/yaml_parsing.rs:157-161 | the prefix before the first `"\n\n"`, or the whole text when there is none |
| YamlParsing.ParseToolResponseYaml | src/yaml_parsing.rs:148-163 | any Ok result has at most one entry; the only error is `Invalid YAML` |
| YamlParsing.ToolResponseRetry | src/yaml_parsing.rs:152-162 | the whole reply's result when it normalises; otherwise the result for the prefix before the first blank line, or for the whole again when there is no blank line |
| YamlParsing.NormalizeSingleEntry | src/yaml_parsing.rs:140-142 | a one-entry reply comes back unchanged |
| YamlParsing.NormalizeThreeEntries | src/yaml_parsing.rs:128-139 | a three-entry reply is cut down to its first entry |
| ResponseFormats.Default | src/response_formats.rs:13-15 | the default format is the one `"yaml"` names |
| ResponseFormats.FromStr | src/response_formats.rs:17-27 | Ok exactly when the lower-cased text is `yaml`, `json` or `json_fixed_key`, giving the format of that name; otherwise the `Invalid format: <s>. Valid options: ...` error |
| ResponseFormats.FromStrRoundTrip | src/response_formats.rs:17-21 | any spelling whose lower case is a format's name reads as that format |
| ResponseFormats.FromStrOfName | src/response_formats.rs:17-21 | every format's name reads back as that format |
| ResponseFormats.ConvertYamlToJson | src/response_formats.rs:38-78 | the recursive conversion, with its loops and early error returns, equals the function `ToJson` |
| ResponseFormats.ConvertItems | src/response_formats.rs:55-61 | the loop over a sequence's items, which returns the first item error, equals `ItemsToJson` |
| ResponseFormats.ItemsErrorSticks | src/response_formats.rs:58-60 | after the first element that fails, the sequence's result is that error |
| ResponseFormats.EntriesErrorSticks | src/response_formats.rs:65-71 | after the first pair that fails, the mapping's result is that error |
| ResponseFormats.YamlMappingToJsonMap | src/response_formats.rs:80-93 | the loop over a mapping's pairs (also the mapping case of `convert_yaml_to_json`), which stops at the first non-string key or failed value, equals `EntriesToJson` |
| ResponseFormats.ConvertFailsExactly | src/response_formats.rs:63-77 | the conversion succeeds exactly on values with no tag and only string keys, at any depth; its only errors are the two messages |
| ResponseFormats.ItemsFailExactly | src/response_formats.rs:56-62 | a sequence converts exactly when every element does |
| ResponseFormats.EntriesFailExactly | src/response_formats.rs:63-73 | a mapping converts exactly when every key is a string and every value converts |
| ResponseFormats.ConvertPreservesShape | src/response_formats.rs:41-62 | scalars keep their constructor and payload, and a sequence converts element by element, with the same length and order |
| ResponseFormats.ItemsPointwise | src/response_formats.rs:56-62 | a converted sequence has one converted element per element, in order |
| ResponseFormats.EntriesPointwise | src/response_formats.rs:63-73 | a mapping with distinct keys becomes an object with the same keys, in the same order, and the converted values |
| OrderedMap.InsertNewKey | src/response_formats.rs:67 | inserting a key not yet present appends its pair |
| ResponseFormats.EntriesToJsonSize | src/response_formats.rs:63-73 | the object is never larger than the mapping |
| ResponseFormats.ParseToolResponse | src/response_formats.rs:180-194 | whichever format is chosen, an Ok result has at most one entry |
| ResponseFormats.YamlParseFirstEntry | src/response_formats.rs:97-124 | the YAML parser's result depends on the first pair only: empty gives empty, a non-string key or unconvertible value gives that error, otherwise the one converted pair; a non-mapping gives `Invalid YAML` |
| ResponseFormats.SinglePair | src/response_formats.rs:80-93 | a one-pair mapping converts to its pair, or fails on its key or its value |
| ResponseFormats.JsonVariableKeysFirstEntry | src/response_formats.rs:128-155 | the variable-key JSON parser keeps the first field of a larger object and returns smaller ones as they are; it fails with `Invalid JSON` exactly on non-objects |
| ResponseFormats.JsonFixedKeysRule | src/response_formats.rs:159-178 | the fixed-key parser succeeds exactly when `tool` is a string and `tool_args` is present, giving `{tool: tool_args}`; its only error is `Invalid JSON` |
| ResponseFormats.ResponseFormat | src/response_formats.rs:195-232 | a schema is requested exactly in the fixed-key format |
| ResponseFormats.ResponseFormatSchema | src/response_formats.rs:199-228 | the schema is named `tool_call` and is strict; it limits `tool` to the given names, requires `tool` and `tool_args`, and forbids other fields |
| ToolHandler.DisplayIdentifiesPrompt | src/tool_handler.rs:25-37 | two prompts that display the same are the same prompt |
| ToolHandler.ResponseMapping | src/tool_handler.rs:124-144 | the mapping returned for a non-blank reply has at most one entry |
| ToolHandler.DecidingAttempt | src/tool_handler.rs:109-124 | the attempt that ends the retry loop is the first whose reply is not blank; there is none exactly when every reply within the budget is blank |
| ToolHandler.ChooseTool | src/tool_handler.rs:109-147 | the retry loop equals `ChooseToolFrom`; it makes at most `retries` requests, all blank but the last; it either fails with the retry error after `retries` blank replies or returns the last reply's result |
| ToolHandler.Attempt | src/tool_handler.rs:113-144 | one pass of the retry loop gives nothing exactly for a blank reply; otherwise it gives the reply's result: its error, the parsed mapping, or the fallback call of the finishing tool |
| ToolHandler.AllBlankFails | src/tool_handler.rs:109-147 | only blank replies, or no attempts at all, give `Failed to get non-empty tool choice after retries` |
| ToolHandler.FirstNonBlankDecides | src/tool_handler.rs:109-127 | the first reply that is not blank decides the result: a transport error, `No response`, `No content`, or the mapping |
| ToolHandler.ChosenAtMostOne | src/tool_handler.rs:124-144 | a successful choice has at most one entry |
| ToolHandler.FallbackIsFinish | src/tool_handler.rs:128-144 | a non-blank reply that does not parse becomes a call of `finish_planning` or `finish_task`, by mode, whose `message` is the trimmed reply |
| ToolHandler.PrimaryValue | src/tool_handler.rs:223-229 | the string at the key; `""` when the arguments are not a mapping, the key is absent, or the value is not a string |
| ToolHandler.HandleToolSelection | src/tool_handler.rs:203-241 | a failed choice is returned as is; an empty mapping or a non-string first key panics with the source's message; otherwise the tool is the first key, the arguments are its value, the primary value is read at the tool's key, and the assistant text is the whole mapping serialised |
| ToolHandler.FindTool | src/tool_handler.rs:160-163 | the index of the first registry entry with the name, or none when no entry has it |
| ToolHandler.ExecuteToolCall | src/tool_handler.rs:159-164 | an unknown name gives `Other("Unknown tool: <name>")`; otherwise the first tool of that name runs |
| ToolHandler.ExecuteOnRegistry | src/tool_handler.rs:159-164 | on the tool registry, execution runs the tool of that name, or reports it unknown |
| ToolHandler.ArgsStrOfStrings | src/tool_handler.rs:167-187 | string arguments render as `k: 'v'`, one per pair in order, joined by single spaces |
| ToolHandler.ArgsStrTwoStrings | src/tool_handler.rs:167-187 | two string arguments render as `k1: 'v1' k2: 'v2'` |
| ToolHandler.ArgsStrOddShapes | src/tool_handler.rs:168-186 | a non-string key shows as `key`, and arguments that are not a mapping render as `""` |
| ToolHandler.FinishRule | src/tool_handler.rs:265-274 | the finishing tools always finish; with `max_tool_calls == 0` nothing else does; with a budget, any count at or past it does; the plan flag changes nothing; the rule is monotone in the count |
| Output.Output.constructor | src/output.rs:14-16 | a new sink of the given kind has emitted nothing |
| Output.Output.PrintToolCall | src/output.rs:19-21 | appends `--- [tool primary]` |
| Output.Output.PrintResult | src/output.rs:23-31 | appends the result lines of its kind (stdout: the preview when details are on; interface: the result of the user-facing tools) |
| Output.Output.PrintSummary | src/output.rs:33-38 | a loop appends the header and then one line per call |
| Output.Output.PrintFailure | src/output.rs:40-52 | appends the failure lines of its kind |
| Output.StdoutResultPreview | src/output.rs:23-31 | with details off, stdout shows no result; with details on, one line holding at most 500 characters of `[tool primary]\nresult`, starting with the marker and whole when short |
| Output.TuiResultForwarding | src/output.rs:65-72 | the interface shows exactly the result text, and only for `describe_to_user`, `finish_task` and `finish_planning` |
| Output.SinksAgree | src/output.rs:74-79 | both sinks announce a call and summarise a run identically: the header, then one `[tool arg]` per call |
| Output.FailureReport | src/output.rs:40-52 | a failure always starts with the call's marker; stdout with details adds the `[FAILURE ...]` line and the error; otherwise the error is not shown |
| AttoTool.InitialHistoryShape | src/attotool.rs:28-61 | a fresh run holds the AGENTS.md message, present only when enabled and readable, followed by the input; a continued run is the loaded history plus the input |
| AttoTool.RunTurn | src/attotool.rs:63-149 | one pass of the loop body equals `Step` on the state before it |
| AttoTool.LoopToolsUntilFinish | src/attotool.rs:10-155 | the loop's exit, history, calls and output equal `RunAt` from the initial history; history.yaml is written only on a normal exit |
| AttoTool.StepRecords | src/attotool.rs:76-141 | a selected call is recorded exactly once, before execution; an assistant message is added iff its text is not blank; then the result message on success, the `[FAILURE tool args]` message on an error, none on a prompt; a failed selection changes nothing |
| AttoTool.StepControl | src/attotool.rs:103-149 | the loop finishes only after a success that meets the finish condition; a failure always continues; a prompt or a failed selection stops the loop |
| AttoTool.StepAppends | src/attotool.rs:62-150 | one iteration only appends to the history, the calls and the output |
| AttoTool.AppendOnly | src/attotool.rs:62-150 | over the whole loop the history, the calls and the output only grow |
| AttoTool.HowTheLoopEnds | src/attotool.rs:117-153 | a normal exit follows a successful finishing turn, and the output ends with the summary of all calls; a stop follows a failed selection or a prompt, and the error is passed on |
| AttoTool.StopEnds | src/attotool.rs:63-121 | a stop ends the run in the state its last turn left, so nothing, and no summary, is emitted after it |
| AttoTool.BudgetEndsRun | src/attotool.rs:142-149 | with a budget, plain work finishes after exactly the remaining budget's turns, with the budget's number of calls |
| AttoTool.UnboundedNeverFinishes | src/attotool.rs:142-149 | with no budget and no finishing tool selected, the run never exits normally |
| App.LastUserIndex | src/app.rs:154-155 | the position of the latest history line that starts with `User: `: that line starts so and no later one does; none exactly when no line does |
| App.App.constructor | src/app.rs:54-75 | a new interface is idle: no prompt, no pending answer or input, empty input and history, scroll 0 |
| App.App.HandleKey | src/app.rs:101-322 | the key handler's new state equals `OnKey` of the old one |
| App.App.HandleEnter | src/app.rs:160-317 | the Enter handler's new state equals `OnEnter` of the old one |
| App.App.HandleResult | src/app.rs:342-363 | the result handler's new state equals `OnResult` of the old one |
| App.App.Handle | src/app.rs:98-363 | one event's new state equals `Next` of the old one |
| App.App.Run | src/app.rs:97-372 | the event loop's final state and the number of events taken equal `RunEvents` |
| App.BusyIgnoresKeys | src/app.rs:102-105 | while processing with no prompt, every key, Esc included, leaves the state unchanged |
| App.QuitKeys | src/app.rs:139-141 | Esc and Ctrl-D set `should_quit`, change nothing else, and end the loop at once |
| App.AnswerLetters | src/app.rs:107-138 | `y`/`Y`/`n`/`N` are always typed; only under an Approval prompt do they also set the pending answer, to yes for `y`/`Y` and to no for `n`/`N` |
| App.EditingKeys | src/app.rs:142-151 | other characters and Backspace edit the input only with no prompt or under Clarification; Backspace drops the last character and leaves empty input empty |
| App.UpRecallsLastRequest | src/app.rs:152-159 | Up with no prompt puts the latest `User: ` line's text in the input |
| App.FreshRequest | src/app.rs:265-316 | Enter when idle logs `User: <input>` and `Processing request...`, clears the input, sets `processing`, and starts one run with that input and no approval |
| App.ApprovalEnter | src/app.rs:163-213 | Enter under Approval uses up the pending answer and clears the input; it starts a run exactly when an answer and an input are both pending; the prompt stays |
| App.ClarificationEnter | src/app.rs:214-263 | Enter under Clarification logs the answer and `Processing clarification...` and starts a run with it, even when a run is in progress; the prompt stays |
| App.ResultArrives | src/app.rs:342-363 | a result clears `processing`; a prompt becomes the pending prompt and is logged, and a clarification also clears the input; an error logs `Error: e`; a plain success adds nothing |
| App.ScrollSaturates | src/app.rs:325-332 | scrolling moves one line and saturates at 0 and at 65535 |
| App.RunGrowsOnly | src/app.rs:97-372 | over any events the history and the started runs only grow; `pending_input` stays unset, so no run ever gets an approval override; the loop stops early only on quit |
| App.OutputInOrder | src/app.rs:336-341 | output lines are appended to the history one by one, in arrival order |
| Text.TrimEmptyIffBlank | src/tool_handler.rs:116-124 | a trimmed reply is empty exactly when the reply is all whitespace |
| Text.Find | src/yaml_parsing.rs:157 | the first place the pattern occurs, or none when it occurs nowhere |
| Text.Take | src/output.rs:28 | the first `n` characters, or all of them when there are fewer |
| Text.LowerIdempotent | src/response_formats.rs:18 | lower-casing is idempotent, and its result has no letter it would change, so `from_str` matches the names however they are capitalised |
| Text.ReplaceLeavesNoPlaceholder | src/yaml_parsing.rs:55-58 | replacing `{}` by a non-empty brace-free text leaves no `{}` |
| Text.TrimStartMatches | src/yaml_parsing.rs:81 | strips exactly the leading run of the character |
| OrderedMap.Insert | src/yaml_parsing.rs:41 | inserting keeps the key order and adds a new key at the end |
| OrderedMap.GetInsert | src/yaml_parsing.rs:41 | after an insert, the key has the new value and every other key is unchanged |

## Left out

- The network: the chat-completion client, `OPENROUTER_API_KEY`, and building the request in `choose_tool` (src/tool_handler.rs:70-107) are the `reply` parameter. Because the request is the same on every attempt, the model cannot tell a request whose reply changes with the history.
- `serde_yaml` and `serde_json` parsing and serialisation are parameters. The model does not capture their text formats, and it treats `to_string` as total: the `unwrap` in `compute_args_str` and the `unwrap_or_default` in `handle_tool_selection` are not modelled.
- File and process I/O are inputs and outputs: reading history.yaml and AGENTS.md, writing history.yaml, running zsh, reading and writing files, and reading stdin. The `expect`s on reading and parsing history.yaml (src/attotool.rs:30-33) are not modelled.
- `AttoTool.LoopToolsUntilFinish`: the source loop has no bound. The model's script of turns is finite and ends the run with `Exhausted` when it runs out, so an endless run is not captured.
- `AttoTool.LoopToolsUntilFinish`: a failed selection's `SelectionError` becomes its message, and a panic (`Panicked`) is not an outcome of the loop. In the source a panic aborts the task.
- `AttoTool.RunTurn` is the loop body moved into a method of its own to keep each proof small; `LoopToolsUntilFinish` calls it once per iteration.
- `AttoTool.LoopToolsUntilFinish` returns the history also on a stop. The source drops it; nothing is written to history.yaml.
- Floating point: the float branch of `convert_yaml_to_json` (src/response_formats.rs:47-53) is left out; numbers are integers.
- `to_lowercase` is modelled for ASCII and the Kelvin sign. That is exact for every comparison the source makes against ASCII names, but not for other case mappings.
- `serde_json::Map` is modelled as insertion-ordered (the `preserve_order` feature). Cargo.toml is not part of this model. Under the default sorted map, the first field kept by the variable-key JSON parser would be the smallest key.
- Inconsistencies between src/tools.rs, src/tool_handler.rs and src/yaml_parsing.rs are resolved in favour of the definitions:
  - `get_tools` takes no arguments (src/tools.rs:202), although src/tool_handler.rs:78,159 calls `get_tools(yolo, plan_mode)`.
  - `get_primary_key`, called at src/tool_handler.rs:223, is not part of this model; it is the parameter `primaryKey`.
  - `Tool::execute` takes two arguments (src/tools.rs:70-74), although src/tool_handler.rs:164 calls it with five. The approval override is therefore not passed to the tools.
  - No `finish_planning` tool exists in the registry, although the fallback and the finish rule name it.
  - The module imported as `yaml_utilities` is src/yaml_parsing.rs, and its four-argument `format_system_prompt` is modelled.
- Panics on I/O failure are not modelled: the `expect`s on parsing the built-in prompt and on reading and parsing the user's system_prompt.yaml (src/yaml_parsing.rs:92-94, 100-101, 105-106; `FormatSystemPrompt` takes the parsed user file as an input), the `flush` and `read_line` `unwrap`s (src/tools.rs:104, 106, 188), and `expect("Failed to execute command")` (src/tools.rs:132).
- `Tools`: `prompt_approval` prints the question and flushes stdout; only its decision on the answer line is modelled.
- Concurrency: `tokio::select!`, `tokio::spawn`, the mpsc channels, and the drop on a full channel by `try_send` (src/output.rs:61-89) are not modelled. Events are handled one at a time, a spawned run is recorded in `spawned`, and every line is delivered.
- `App`: the configuration fields copied into each spawned run (model, retries, tokens, URL, flags) are not recorded in `spawned`. So are terminal setup, drawing, the immediate redraws, the 250 ms tick redraw, and the error return of a failed draw or event read.
- src/tui.rs (rendering, and clamping `scroll` to the wrapped history height when drawing) and src/event.rs (mapping terminal events to `Event`) are not part of this model. `App.ScrollSaturates` therefore states only the `u16` saturation of the handler.
- src/main.rs (command-line parsing, `get_default_model`, environment lookups) and all verbose logging are not part of this model.
