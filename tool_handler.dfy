/**
 * src/tool_handler.rs: asking the model for a tool call with retries and a
 * fallback, reading the call out of the reply, looking the tool up and
 * running it, the one-line rendering of the arguments, and the finish rule.
 *
 * The chat-completion request is the same on every attempt, so the API is
 * the parameter `reply`: what the `attempt`-th request returns. Parsing YAML
 * is `parse`, `serde_yaml::to_string` is `toYaml`, and the primary-argument
 * key of a tool (`get_primary_key`) is `primaryKey`.
 */
module ToolHandler {
  import opened Wrappers
  import opened Text
  import OrderedMap
  import Yaml
  import YamlParsing
  import Tools

  datatype PromptType = Approval(msg: string) | Clarification(msg: string)

  /** `Prompt` stops the loop to ask the user something; `Other` is a failure. */
  datatype LoopError = Prompt(prompt: PromptType) | Other(message: string)

  /** `Display for LoopError` */
  function Display(e: LoopError): string {
    match e
    case Prompt(Approval(msg)) => "Approval: " + msg
    case Prompt(Clarification(msg)) => "Clarification: " + msg
    case Other(msg) => msg
  }

  /** The displayed text of a prompt tells which prompt it is and what it says. */
  lemma DisplayIdentifiesPrompt(p: PromptType, q: PromptType)
    requires Display(Prompt(p)) == Display(Prompt(q))
    ensures p == q
  {
    var dp, dq := Display(Prompt(p)), Display(Prompt(q));
    assert dp[0] == dq[0];
    match p
    case Approval(a) =>
      assert dp[10..] == a;
      assert dq[10..] == q.msg;
    case Clarification(c) =>
      assert dp[15..] == c;
      assert dq[15..] == q.msg;
  }

  // ---------------------------------------------------------------------
  // choose_tool

  /**
   * What one chat-completion request gives: a transport error, a response
   * without choices, a choice without content, or the content.
   */
  datatype ApiReply = Transport(error: string) | NoChoice | NoContent | Content(content: string)

  /** A reply whose content is only whitespace: the attempt is retried. */
  predicate BlankReply(a: ApiReply) {
    a.Content? && IsBlank(a.content)
  }

  const NoToolChoice := "Failed to get non-empty tool choice after retries"

  /** The name of the finishing tool of the mode. */
  function FinishToolName(planMode: bool): string {
    if planMode then "finish_planning" else "finish_task"
  }

  /** The mapping built when a non-empty reply is not a tool call. */
  function FallbackMapping(trimmed: string, planMode: bool): Yaml.Mapping {
    var args := OrderedMap.Insert([], Yaml.String("message"), Yaml.String(trimmed));
    OrderedMap.Insert([], Yaml.String(FinishToolName(planMode)), Yaml.Mapping(args))
  }

  /** The mapping `choose_tool` returns for a non-empty trimmed reply. */
  function ResponseMapping(parse: string -> Option<Yaml.Value>, trimmed: string, planMode: bool): (m: Yaml.Mapping)
    ensures |m| <= 1
  {
    match YamlParsing.ParseToolResponseYaml(parse, trimmed)
    case Ok(normalized) => normalized
    case Err(_) => FallbackMapping(trimmed, planMode)
  }

  /** The result of an attempt that is not retried. */
  function AttemptResult(a: ApiReply, parse: string -> Option<Yaml.Value>, planMode: bool): Result<Yaml.Mapping, string> {
    match a
    case Transport(e) => Err(e)
    case NoChoice => Err("No response")
    case NoContent => Err("No content")
    case Content(c) => Ok(ResponseMapping(parse, Trim(c), planMode))
  }

  /**
   * The attempt that ends the retry loop when attempts `k` to `retries - 1`
   * are still to be made: the first whose reply is not blank, if any.
   */
  function DecidingAttempt(reply: nat -> ApiReply, k: nat, retries: nat): (r: Option<nat>)
    ensures r.Some? ==> && k <= r.value < retries && !BlankReply(reply(r.value))
                        && forall j :: k <= j < r.value ==> BlankReply(reply(j))
    ensures r.None? ==> forall j :: k <= j < retries ==> BlankReply(reply(j))
    decreases retries - k
  {
    if k >= retries then None
    else if BlankReply(reply(k)) then DecidingAttempt(reply, k + 1, retries)
    else Some(k)
  }

  /** What `choose_tool` returns when attempts `k` to `retries - 1` are still to be made. */
  function ChooseToolFrom(reply: nat -> ApiReply, k: nat, retries: nat, planMode: bool,
                          parse: string -> Option<Yaml.Value>): Result<Yaml.Mapping, string>
  {
    match DecidingAttempt(reply, k, retries)
    case None => Err(NoToolChoice)
    case Some(i) => AttemptResult(reply(i), parse, planMode)
  }

  /**
   * `choose_tool`: up to `retries` requests; blank replies are retried, any
   * other reply ends the loop. `attempts` is the number of requests made.
   */
  method ChooseTool(reply: nat -> ApiReply, retries: nat, planMode: bool, parse: string -> Option<Yaml.Value>)
    returns (r: Result<Yaml.Mapping, string>, attempts: nat)
    ensures r == ChooseToolFrom(reply, 0, retries, planMode, parse)
    ensures attempts <= retries
    ensures forall k :: 0 <= k < attempts - 1 ==> BlankReply(reply(k))
    ensures || (r == Err(NoToolChoice) && attempts == retries && forall k :: 0 <= k < retries ==> BlankReply(reply(k)))
            || (1 <= attempts && !BlankReply(reply(attempts - 1)) && r == AttemptResult(reply(attempts - 1), parse, planMode))
  {
    for attempt := 0 to retries
      invariant ChooseToolFrom(reply, 0, retries, planMode, parse) == ChooseToolFrom(reply, attempt, retries, planMode, parse)
      invariant forall k :: 0 <= k < attempt ==> BlankReply(reply(k))
    {
      var response := reply(attempt);
      var outcome := Attempt(response, parse, planMode);
      if outcome.Some? {
        assert DecidingAttempt(reply, attempt, retries) == Some(attempt);
        return outcome.value, attempt + 1;
      }
      assert DecidingAttempt(reply, attempt, retries) == DecidingAttempt(reply, attempt + 1, retries);
    }
    r, attempts := Err(NoToolChoice), retries;
  }

  /** The body of the retry loop: nothing for a blank reply, which is retried, else the result. */
  method Attempt(response: ApiReply, parse: string -> Option<Yaml.Value>, planMode: bool)
    returns (r: Option<Result<Yaml.Mapping, string>>)
    ensures r.None? <==> BlankReply(response)
    ensures r.Some? ==> r.value == AttemptResult(response, parse, planMode)
  {
    match response
    case Transport(e) =>
      return Some(Err(e));
    case NoChoice =>
      return Some(Err("No response"));
    case NoContent =>
      return Some(Err("No content"));
    case Content(content) =>
      var trimmed := Trim(content);
      TrimEmptyIffBlank(content);
      if trimmed != [] {
        var normalized := YamlParsing.ParseToolResponseYaml(parse, trimmed);
        if normalized.Ok? {
          return Some(Ok(normalized.value));
        }
        return Some(Ok(FallbackMapping(trimmed, planMode)));
      }
      return None;
  }

  /** Only blank replies within the budget: the retry error, also when `retries == 0`. */
  lemma AllBlankFails(reply: nat -> ApiReply, k: nat, retries: nat, planMode: bool,
                      parse: string -> Option<Yaml.Value>)
    requires forall j :: k <= j < retries ==> BlankReply(reply(j))
    ensures ChooseToolFrom(reply, k, retries, planMode, parse) == Err(NoToolChoice)
  {
  }

  /** The first reply that is not blank decides the result. */
  lemma FirstNonBlankDecides(reply: nat -> ApiReply, k: nat, f: nat, retries: nat, planMode: bool,
                             parse: string -> Option<Yaml.Value>)
    requires k <= f < retries && !BlankReply(reply(f))
    requires forall j :: k <= j < f ==> BlankReply(reply(j))
    ensures ChooseToolFrom(reply, k, retries, planMode, parse) == AttemptResult(reply(f), parse, planMode)
  {
    DecidingIsFirst(reply, k, f, retries);
  }

  lemma {:induction false} DecidingIsFirst(reply: nat -> ApiReply, k: nat, f: nat, retries: nat)
    requires k <= f < retries && !BlankReply(reply(f))
    requires forall j :: k <= j < f ==> BlankReply(reply(j))
    ensures DecidingAttempt(reply, k, retries) == Some(f)
    decreases f - k
  {
    if k < f {
      DecidingIsFirst(reply, k + 1, f, retries);
    }
  }

  /** Whatever `choose_tool` returns successfully has at most one entry. */
  lemma ChosenAtMostOne(reply: nat -> ApiReply, k: nat, retries: nat, planMode: bool,
                        parse: string -> Option<Yaml.Value>)
    ensures var r := ChooseToolFrom(reply, k, retries, planMode, parse);
      r.Ok? ==> |r.value| <= 1
  {
  }

  /**
   * A non-blank reply that is not a tool call becomes a call of the mode's
   * finishing tool whose `message` is the trimmed reply.
   */
  lemma FallbackIsFinish(parse: string -> Option<Yaml.Value>, trimmed: string, planMode: bool)
    requires YamlParsing.ParseToolResponseYaml(parse, trimmed).Err?
    ensures ResponseMapping(parse, trimmed, planMode)
            == [(Yaml.String(FinishToolName(planMode)),
                 Yaml.Mapping([(Yaml.String("message"), Yaml.String(trimmed))]))]
    ensures PrimaryValue(ResponseMapping(parse, trimmed, planMode)[0].1, "message") == trimmed
  {
  }

  // ---------------------------------------------------------------------
  // handle_tool_selection

  /**
   * The string under `key` in the arguments, and "" when the arguments are
   * not a mapping, the key is absent or its value is not a string.
   */
  function PrimaryValue(args: Yaml.Value, key: string): (r: string)
    ensures !args.Mapping? ==> r == ""
    ensures args.Mapping? && Yaml.String(key) !in OrderedMap.Keys(args.entries) ==> r == ""
    ensures args.Mapping? && Yaml.String(key) in OrderedMap.Keys(args.entries) ==>
              var v := OrderedMap.Get(args.entries, Yaml.String(key)).value;
              r == if v.String? then v.s else ""
  {
    if args.Mapping? then
      var v := OrderedMap.Get(args.entries, Yaml.String(key));
      if v.Some? && v.value.String? then v.value.s else ""
    else ""
  }

  /** The tool call as the loop uses it. */
  datatype Selected = Selected(tool: string, args: Yaml.Value, primary: string, assistantContent: string)

  /** A failed selection: `choose_tool` failed, or one of the two `expect`s panicked. */
  datatype SelectionError = Failed(message: string) | Panicked(message: string)

  /**
   * `handle_tool_selection`: the tool is the first key of the chosen mapping,
   * its value the arguments; the primary value is read at the tool's primary
   * key; the assistant message is the whole mapping serialised.
   */
  method HandleToolSelection(reply: nat -> ApiReply, retries: nat, planMode: bool,
                             parse: string -> Option<Yaml.Value>, primaryKey: string -> string,
                             toYaml: Yaml.Value -> string)
    returns (r: Result<Selected, SelectionError>)
    ensures var choice := ChooseToolFrom(reply, 0, retries, planMode, parse);
      && (choice.Err? ==> r == Err(Failed(choice.error)))
      && (choice.Ok? && choice.value == [] ==> r == Err(Panicked("Mapping should have at least one entry")))
      && (choice.Ok? && choice.value != [] && !choice.value[0].0.String? ==>
            r == Err(Panicked("Key should be a string")))
      && (choice.Ok? && choice.value != [] && choice.value[0].0.String? ==>
            var (key, value) := choice.value[0];
            r == Ok(Selected(key.s, value, PrimaryValue(value, primaryKey(key.s)), toYaml(Yaml.Mapping(choice.value)))))
  {
    var chosen, _ := ChooseTool(reply, retries, planMode, parse);
    if chosen.Err? {
      return Err(Failed(chosen.error));
    }
    var mapping := chosen.value;
    var yamlValue := Yaml.Mapping(mapping);
    if mapping == [] {
      return Err(Panicked("Mapping should have at least one entry"));
    }
    var (key, value) := mapping[0];
    if !key.String? {
      return Err(Panicked("Key should be a string"));
    }
    var tool := key.s;
    var argsParsed := value;
    var primaryValue := PrimaryValue(argsParsed, primaryKey(tool));
    var assistantContent := toYaml(yamlValue);
    r := Ok(Selected(tool, argsParsed, primaryValue, assistantContent));
  }

  // ---------------------------------------------------------------------
  // execute_tool_call

  /** `find` on the registry: the first tool with the given name. */
  function FindTool<T>(registry: seq<T>, nameOf: T -> string, toolName: string): (r: Option<nat>)
    ensures r.Some? ==> r.value < |registry| && nameOf(registry[r.value]) == toolName
                        && forall j :: 0 <= j < r.value ==> nameOf(registry[j]) != toolName
    ensures r.None? ==> forall j :: 0 <= j < |registry| ==> nameOf(registry[j]) != toolName
  {
    if registry == [] then None
    else if nameOf(registry[0]) == toolName then Some(0)
    else match FindTool(registry[1..], nameOf, toolName)
      case None => None
      case Some(i) => Some(i + 1)
  }

  /**
   * `execute_tool_call`: an unknown name is an `Other` error; otherwise the
   * first tool of that name runs.
   */
  function ExecuteToolCall<T>(registry: seq<T>, nameOf: T -> string, toolName: string, args: Yaml.Value,
                              execute: (T, Yaml.Value) -> Result<string, LoopError>): (r: Result<string, LoopError>)
    ensures (forall j :: 0 <= j < |registry| ==> nameOf(registry[j]) != toolName) ==>
              r == Err(Other("Unknown tool: " + toolName))
    ensures forall i :: 0 <= i < |registry| && nameOf(registry[i]) == toolName
                        && (forall j :: 0 <= j < i ==> nameOf(registry[j]) != toolName) ==>
              r == execute(registry[i], args)
  {
    match FindTool(registry, nameOf, toolName)
    case None => Err(Other("Unknown tool: " + toolName))
    case Some(i) =>
      FirstMatchIsUnique(registry, nameOf, toolName, i);
      execute(registry[i], args)
  }

  /** Only one position holds the first tool of a name. */
  lemma FirstMatchIsUnique<T>(registry: seq<T>, nameOf: T -> string, toolName: string, i: nat)
    requires i < |registry| && nameOf(registry[i]) == toolName
    requires forall j :: 0 <= j < i ==> nameOf(registry[j]) != toolName
    ensures forall k ::
              (0 <= k < |registry| && nameOf(registry[k]) == toolName
               && forall j :: 0 <= j < k ==> nameOf(registry[j]) != toolName) ==> k == i
  {
  }

  /** On the registry of src/tools.rs, looking a name up finds the tool of that name. */
  lemma ExecuteOnRegistry(toolName: string, args: Yaml.Value,
                          execute: (Tools.Tool, Yaml.Value) -> Result<string, LoopError>)
    ensures ExecuteToolCall(Tools.GetTools(), (t: Tools.Tool) => t.Name(), toolName, args, execute)
            == match Tools.FromName(toolName)
               case None => Err(Other("Unknown tool: " + toolName))
               case Some(t) => execute(t, args)
  {
    var reg := Tools.GetTools();
    var nameOf := (t: Tools.Tool) => t.Name();
    Tools.NamesIdentifyTools();
    match Tools.FromName(toolName)
    case None =>
    case Some(t) =>
      assert t in reg;
      var i :| 0 <= i < |reg| && reg[i] == t;
      forall j | 0 <= j < i ensures nameOf(reg[j]) != toolName {
        assert reg[j] != reg[i];
      }
  }

  // ---------------------------------------------------------------------
  // compute_args_str

  /** One argument: `key: 'value'` for a string, else the serialised value, trimmed. */
  function ArgEntry(k: Yaml.Value, v: Yaml.Value, toYaml: Yaml.Value -> string): string {
    var keyStr := k.AsStr().GetOr("key");
    if v.String? then keyStr + ": '" + v.s + "'"
    else keyStr + ": " + Trim(toYaml(v))
  }

  /** `compute_args_str`: the arguments on one line, in order, separated by spaces. */
  function ComputeArgsStr(args: Yaml.Value, toYaml: Yaml.Value -> string): string {
    if args.Mapping? then
      Join(seq(|args.entries|, i requires 0 <= i < |args.entries| => ArgEntry(args.entries[i].0, args.entries[i].1, toYaml)), " ")
    else ""
  }

  /**
   * One `key: 'value'` per pair of plain strings, in order, joined by single
   * spaces; a non-mapping gives "".
   */
  lemma {:induction false} ArgsStrOfStrings(entries: Yaml.Mapping, toYaml: Yaml.Value -> string)
    requires forall i :: 0 <= i < |entries| ==> entries[i].0.String? && entries[i].1.String?
    ensures ComputeArgsStr(Yaml.Mapping(entries), toYaml)
            == Join(seq(|entries|, i requires 0 <= i < |entries| => entries[i].0.s + ": '" + entries[i].1.s + "'"), " ")
  {
    var a := seq(|entries|, i requires 0 <= i < |entries| => ArgEntry(entries[i].0, entries[i].1, toYaml));
    var b := seq(|entries|, i requires 0 <= i < |entries| => entries[i].0.s + ": '" + entries[i].1.s + "'");
    assert a == b;
  }

  /** Two string arguments render as `k1: 'v1' k2: 'v2'`. */
  lemma ArgsStrTwoStrings(k1: string, v1: string, k2: string, v2: string, toYaml: Yaml.Value -> string)
    ensures ComputeArgsStr(Yaml.Mapping([(Yaml.String(k1), Yaml.String(v1)), (Yaml.String(k2), Yaml.String(v2))]), toYaml)
            == k1 + ": '" + v1 + "' " + k2 + ": '" + v2 + "'"
  {
    var es := [(Yaml.String(k1), Yaml.String(v1)), (Yaml.String(k2), Yaml.String(v2))];
    ArgsStrOfStrings(es, toYaml);
    var parts := seq(|es|, i requires 0 <= i < |es| => es[i].0.s + ": '" + es[i].1.s + "'");
    assert parts == [k1 + ": '" + v1 + "'", k2 + ": '" + v2 + "'"];
    assert parts[1..] == [parts[1]];
  }

  /** A non-string key shows as `key`; a value that is not a mapping has no arguments. */
  lemma ArgsStrOddShapes(n: int, v: string, toYaml: Yaml.Value -> string)
    ensures ComputeArgsStr(Yaml.Mapping([(Yaml.Number(n), Yaml.String(v))]), toYaml) == "key: '" + v + "'"
    ensures ComputeArgsStr(Yaml.String(v), toYaml) == ""
  {
    var one := [(Yaml.Number(n), Yaml.String(v))];
    var part := seq(|one|, i requires 0 <= i < |one| => ArgEntry(one[i].0, one[i].1, toYaml));
    assert part == [ArgEntry(Yaml.Number(n), Yaml.String(v), toYaml)];
  }

  // ---------------------------------------------------------------------
  // handle_finish_condition

  /** `handle_finish_condition`; the plan flag is not consulted. */
  predicate FinishCondition(tool: string, toolCallsLen: nat, maxToolCalls: nat, planMode: bool) {
    tool == "finish_task" || tool == "finish_planning" || (maxToolCalls != 0 && toolCallsLen >= maxToolCalls)
  }

  /**
   * The finishing tools always finish; with no budget (`max_tool_calls == 0`)
   * nothing else does; with a budget any call at or past it does; the plan
   * flag changes nothing; and the rule is monotone in the number of calls.
   */
  lemma FinishRule(tool: string, len: nat, len': nat, maxToolCalls: nat, planMode: bool)
    ensures FinishCondition("finish_task", len, maxToolCalls, planMode)
    ensures FinishCondition("finish_planning", len, maxToolCalls, planMode)
    ensures maxToolCalls == 0 && tool != "finish_task" && tool != "finish_planning" ==>
              !FinishCondition(tool, len, maxToolCalls, planMode)
    ensures maxToolCalls != 0 && len >= maxToolCalls ==> FinishCondition(tool, len, maxToolCalls, planMode)
    ensures FinishCondition(tool, len, maxToolCalls, true) == FinishCondition(tool, len, maxToolCalls, false)
    ensures len <= len' && FinishCondition(tool, len, maxToolCalls, planMode) ==>
              FinishCondition(tool, len', maxToolCalls, planMode)
  {
  }
}
