/**
 * src/yaml_parsing.rs: merging the user's prompt configuration over the
 * built-in one, assembling the system prompt, and turning the model's reply
 * into a mapping with at most one entry.
 *
 * `serde_yaml::from_str::<Value>` is the parameter `parse`: `None` when the
 * text is not valid YAML.
 */
module YamlParsing {
  import opened Wrappers
  import opened Text
  import OrderedMap
  import Yaml

  // ---------------------------------------------------------------------
  // merge_yaml

  /** The base mapping after inserting the user's pairs one by one, in order. */
  function InsertAll(base: Yaml.Mapping, user: Yaml.Mapping): Yaml.Mapping
    decreases |user|
  {
    if user == [] then base
    else
      var last := user[|user| - 1];
      OrderedMap.Insert(InsertAll(base, user[..|user| - 1]), last.0, last.1)
  }

  /** What `merge_yaml` computes. */
  function Merged(base: Yaml.Value, user: Yaml.Value): Yaml.Value {
    if base.Mapping? && user.Mapping? then Yaml.Mapping(InsertAll(base.entries, user.entries))
    else base
  }

  /** `merge_yaml`: clone `base` and insert every user pair into the clone. */
  method MergeYaml(base: Yaml.Value, user: Yaml.Value) returns (result: Yaml.Value)
    ensures result == Merged(base, user)
  {
    result := base;
    if result.Mapping? {
      if user.Mapping? {
        var resMap := result.entries;
        var userMap := user.entries;
        for i := 0 to |userMap|
          invariant resMap == InsertAll(base.entries, userMap[..i])
        {
          assert userMap[..i + 1][..i] == userMap[..i];
          resMap := OrderedMap.Insert(resMap, userMap[i].0, userMap[i].1);
        }
        assert userMap[..|userMap|] == userMap;
        result := Yaml.Mapping(resMap);
      }
    }
  }

  /** Keys of the merge: every base key in its place, then the new user keys. */
  lemma {:induction false} InsertAllKeys(base: Yaml.Mapping, user: Yaml.Mapping)
    ensures var ks := OrderedMap.Keys(InsertAll(base, user));
      && OrderedMap.Keys(base) <= ks
      && (forall k :: k in OrderedMap.Keys(user) ==> k in ks)
      && (forall k :: k in ks ==> k in OrderedMap.Keys(base) || k in OrderedMap.Keys(user))
    decreases |user|
  {
    if user != [] {
      var init := user[..|user| - 1];
      var last := user[|user| - 1];
      InsertAllKeys(base, init);
      var prev := OrderedMap.Keys(InsertAll(base, init));
      var ks := OrderedMap.Keys(InsertAll(base, user));
      assert ks == if last.0 in prev then prev else prev + [last.0];
      OrderedMap.KeysSnoc(user);
      MergeKeysStep(OrderedMap.Keys(base), OrderedMap.Keys(init), prev, last.0, ks, OrderedMap.Keys(user));
    }
  }

  /** Inserting one more key keeps the three facts about the merged keys. */
  lemma MergeKeysStep(baseKeys: seq<Yaml.Value>, initKeys: seq<Yaml.Value>, prev: seq<Yaml.Value>, k: Yaml.Value,
                      ks: seq<Yaml.Value>, userKeys: seq<Yaml.Value>)
    requires baseKeys <= prev
    requires forall x :: x in initKeys ==> x in prev
    requires forall x :: x in prev ==> x in baseKeys || x in initKeys
    requires ks == (if k in prev then prev else prev + [k]) && userKeys == initKeys + [k]
    ensures baseKeys <= ks
    ensures forall x :: x in userKeys ==> x in ks
    ensures forall x :: x in ks ==> x in baseKeys || x in userKeys
  {
  }

  /** Lookup in the merge: the user's value on a user key, the base's value otherwise. */
  lemma {:induction false} InsertAllGet(base: Yaml.Mapping, user: Yaml.Mapping, k: Yaml.Value)
    requires OrderedMap.UniqueKeys(user)
    ensures OrderedMap.Get(InsertAll(base, user), k)
         == if k in OrderedMap.Keys(user) then OrderedMap.Get(user, k) else OrderedMap.Get(base, k)
    decreases |user|
  {
    if user != [] {
      var init := user[..|user| - 1];
      var last := user[|user| - 1];
      assert user == init + [last];
      assert OrderedMap.UniqueKeys(init) by {
        forall i, j | 0 <= i < j < |init| ensures init[i].0 != init[j].0 {
          assert init[i] == user[i] && init[j] == user[j];
        }
      }
      InsertAllGet(base, init, k);
      OrderedMap.GetInsert(InsertAll(base, init), last.0, last.1, k);
      OrderedMap.GetSnoc(init, last, k);
      assert OrderedMap.Keys(user) == OrderedMap.Keys(init) + [last.0];
      if k == last.0 {
        forall i | 0 <= i < |init| ensures OrderedMap.Keys(init)[i] != k {
          assert init[i] == user[i];
        }
      }
    }
  }

  /** Merging keeps keys unique. */
  lemma {:induction false} InsertAllKeepsUnique(base: Yaml.Mapping, user: Yaml.Mapping)
    requires OrderedMap.UniqueKeys(base)
    ensures OrderedMap.UniqueKeys(InsertAll(base, user))
    decreases |user|
  {
    if user != [] {
      InsertAllKeepsUnique(base, user[..|user| - 1]);
      OrderedMap.InsertKeepsUnique(InsertAll(base, user[..|user| - 1]), user[|user| - 1].0, user[|user| - 1].1);
    }
  }

  /**
   * merge_yaml on two mappings keeps every base key in its place, adds every
   * user key, and the user's value wins on a shared key.
   */
  lemma MergeOverrides(base: Yaml.Value, user: Yaml.Value)
    requires base.Mapping? && user.Mapping?
    requires OrderedMap.UniqueKeys(base.entries) && OrderedMap.UniqueKeys(user.entries)
    ensures var m := Merged(base, user);
      && m.Mapping?
      && OrderedMap.UniqueKeys(m.entries)
      && OrderedMap.Keys(base.entries) <= OrderedMap.Keys(m.entries)
      && (forall k :: k in OrderedMap.Keys(m.entries) <==> k in OrderedMap.Keys(base.entries) || k in OrderedMap.Keys(user.entries))
      && (forall k :: OrderedMap.Get(m.entries, k)
                  == if k in OrderedMap.Keys(user.entries) then OrderedMap.Get(user.entries, k)
                     else OrderedMap.Get(base.entries, k))
  {
    InsertAllKeys(base.entries, user.entries);
    InsertAllKeepsUnique(base.entries, user.entries);
    forall k ensures OrderedMap.Get(InsertAll(base.entries, user.entries), k)
                  == if k in OrderedMap.Keys(user.entries) then OrderedMap.Get(user.entries, k)
                     else OrderedMap.Get(base.entries, k) {
      InsertAllGet(base.entries, user.entries, k);
    }
  }

  /** merge_yaml returns `base` itself when either side is not a mapping, or the user's is empty. */
  lemma MergeKeepsBase(base: Yaml.Value, user: Yaml.Value)
    requires !base.Mapping? || !user.Mapping? || user == Yaml.Mapping([])
    ensures Merged(base, user) == base
  {
  }

  // ---------------------------------------------------------------------
  // format_system_prompt_from_yaml / format_system_prompt

  /** The `format!` template of the system prompt. */
  function Assemble(role: string, task: string, dir: string, agentsMd: string, plan: string,
                    tools: string, examples: string): string
  {
    role + "\n\n" + task + "\n\n" + dir + agentsMd + plan + "\n\n" + tools + "\n\n" + examples
  }

  /**
   * `format_system_prompt_from_yaml`. `agentsMdExists` stands for the check
   * `fs::metadata("AGENTS.md").is_ok()`; `currentDir` is the displayed path.
   */
  function FormatSystemPromptFromYaml(yaml: Yaml.Value, currentDir: string, disableAgentsMd: bool,
                                      agentsMdExists: bool, planMode: bool, toolsText: string): string
  {
    var currentDirFormatted := Replace(Yaml.FieldText(yaml, "current_dir"), "{}", currentDir);
    var agentsMdFormatted := if !disableAgentsMd && agentsMdExists then Yaml.FieldText(yaml, "agents_md") else "";
    var planFormatted := if planMode then Yaml.FieldText(yaml, "plan_mode") else "";
    Assemble(Yaml.FieldText(yaml, "role_and_format"), Yaml.FieldText(yaml, "task"),
             currentDirFormatted, agentsMdFormatted, planFormatted,
             Replace(Yaml.FieldText(yaml, "tools"), "{}", toolsText),
             TrimStartMatches(Yaml.FieldText(yaml, "examples"), '\n'))
  }

  /** The five sections of the system prompt, in order. */
  function PromptSections(yaml: Yaml.Value, currentDir: string, disableAgentsMd: bool,
                          agentsMdExists: bool, planMode: bool, toolsText: string): (r: seq<string>)
    ensures |r| == 5
  {
    [ Yaml.FieldText(yaml, "role_and_format"),
      Yaml.FieldText(yaml, "task"),
      Replace(Yaml.FieldText(yaml, "current_dir"), "{}", currentDir)
        + (if !disableAgentsMd && agentsMdExists then Yaml.FieldText(yaml, "agents_md") else "")
        + (if planMode then Yaml.FieldText(yaml, "plan_mode") else ""),
      Replace(Yaml.FieldText(yaml, "tools"), "{}", toolsText),
      TrimStartMatches(Yaml.FieldText(yaml, "examples"), '\n') ]
  }

  lemma AssembleIsJoin(role: string, task: string, dir: string, agentsMd: string, plan: string,
                       tools: string, examples: string)
    ensures Assemble(role, task, dir, agentsMd, plan, tools, examples)
         == Join([role, task, dir + agentsMd + plan, tools, examples], "\n\n")
  {
    JoinFive(role, task, dir + agentsMd + plan, tools, examples, "\n\n");
  }

  /** The prompt is its five sections joined by blank lines. */
  lemma PromptIsJoinedSections(yaml: Yaml.Value, currentDir: string, disableAgentsMd: bool,
                               agentsMdExists: bool, planMode: bool, toolsText: string)
    ensures FormatSystemPromptFromYaml(yaml, currentDir, disableAgentsMd, agentsMdExists, planMode, toolsText)
         == Join(PromptSections(yaml, currentDir, disableAgentsMd, agentsMdExists, planMode, toolsText), "\n\n")
  {
    var dir := Replace(Yaml.FieldText(yaml, "current_dir"), "{}", currentDir);
    var ag := if !disableAgentsMd && agentsMdExists then Yaml.FieldText(yaml, "agents_md") else "";
    var pl := if planMode then Yaml.FieldText(yaml, "plan_mode") else "";
    AssembleIsJoin(Yaml.FieldText(yaml, "role_and_format"), Yaml.FieldText(yaml, "task"), dir, ag, pl,
                   Replace(Yaml.FieldText(yaml, "tools"), "{}", toolsText),
                   TrimStartMatches(Yaml.FieldText(yaml, "examples"), '\n'));
  }

  /** A field that is missing, or is not a string, contributes nothing. */
  lemma MissingFieldIsEmpty(yaml: Yaml.Value, field: string)
    requires !yaml.Mapping? || !Yaml.Index(yaml, field).String?
    ensures Yaml.FieldText(yaml, field) == ""
  {
  }

  /**
   * The placeholders are filled in: with a brace-free, non-empty directory
   * and tool list, no `{}` survives in the third and fourth sections' templates,
   * the agents_md text appears only when enabled and the file exists, the
   * plan-mode text only in plan mode, and the examples lose their leading newlines.
   */
  lemma PromptSectionContents(yaml: Yaml.Value, currentDir: string, disableAgentsMd: bool,
                              agentsMdExists: bool, planMode: bool, toolsText: string)
    requires currentDir != [] && BraceFree(currentDir) && toolsText != [] && BraceFree(toolsText)
    ensures var p := PromptSections(yaml, currentDir, disableAgentsMd, agentsMdExists, planMode, toolsText);
      && (var cd := Replace(Yaml.FieldText(yaml, "current_dir"), "{}", currentDir);
          && !HasPlaceholder(cd)
          && p[2] == cd + (if !disableAgentsMd && agentsMdExists then Yaml.FieldText(yaml, "agents_md") else "")
                        + (if planMode then Yaml.FieldText(yaml, "plan_mode") else ""))
      && !HasPlaceholder(p[3])
      && (p[4] == [] || p[4][0] != '\n')
  {
    FilledTemplates(Yaml.FieldText(yaml, "current_dir"), Yaml.FieldText(yaml, "tools"),
                    Yaml.FieldText(yaml, "examples"), currentDir, toolsText);
  }

  /** The same facts about the three templates, whatever text they hold. */
  lemma FilledTemplates(dirTemplate: string, toolsTemplate: string, examples: string,
                        currentDir: string, toolsText: string)
    requires currentDir != [] && BraceFree(currentDir) && toolsText != [] && BraceFree(toolsText)
    ensures !HasPlaceholder(Replace(dirTemplate, "{}", currentDir))
    ensures !HasPlaceholder(Replace(toolsTemplate, "{}", toolsText))
    ensures var e := TrimStartMatches(examples, '\n'); e == [] || e[0] != '\n'
  {
    ReplaceLeavesNoPlaceholder(dirTemplate, currentDir);
    ReplaceLeavesNoPlaceholder(toolsTemplate, toolsText);
  }

  /**
   * `format_system_prompt`: the user's configuration file, when it exists,
   * is merged over the built-in template before formatting. The built-in
   * template (system_prompt.yaml) is not part of this model, so it is the
   * parameter `baseYaml`.
   */
  function FormatSystemPrompt(baseYaml: Yaml.Value, userYaml: Option<Yaml.Value>, currentDir: string,
                              disableAgentsMd: bool, agentsMdExists: bool, planMode: bool,
                              toolsText: string): string
  {
    var merged := if userYaml.Some? then Merged(baseYaml, userYaml.value) else baseYaml;
    FormatSystemPromptFromYaml(merged, currentDir, disableAgentsMd, agentsMdExists, planMode, toolsText)
  }

  /** A user setting of a section's field replaces the built-in text of that field. */
  lemma UserFieldWins(baseYaml: Yaml.Value, userYaml: Yaml.Value, field: string)
    requires baseYaml.Mapping? && userYaml.Mapping?
    requires OrderedMap.UniqueKeys(userYaml.entries)
    requires Yaml.String(field) in OrderedMap.Keys(userYaml.entries)
    ensures Yaml.FieldText(Merged(baseYaml, userYaml), field) == Yaml.FieldText(userYaml, field)
  {
    InsertAllGet(baseYaml.entries, userYaml.entries, Yaml.String(field));
  }

  // ---------------------------------------------------------------------
  // parse_and_normalize_yaml / parse_tool_response_yaml

  /**
   * `parse_and_normalize_yaml`: a parsed mapping with more than one entry is
   * cut down to its first entry; any other parsed mapping is returned as it
   * is; anything else is "Invalid YAML".
   */
  function ParseAndNormalizeYaml(parse: string -> Option<Yaml.Value>, input: string): (r: Result<Yaml.Mapping, string>)
    ensures r.Err? <==> !(parse(input).Some? && parse(input).value.Mapping?)
    ensures r.Err? ==> r.error == "Invalid YAML"
    ensures r.Ok? ==> var m := parse(input).value.entries;
      && |r.value| <= 1
      && r.value <= m
      && (|m| <= 1 ==> r.value == m)
      && (|m| > 1 ==> r.value == [m[0]])
  {
    match parse(input)
    case Some(Mapping(mapping)) =>
      if |mapping| > 1 then
        Ok(OrderedMap.Insert([], mapping[0].0, mapping[0].1))
      else
        Ok(mapping)
    case _ => Err("Invalid YAML")
  }

  /** The text before the first blank line, or all of it. */
  function BeforeBlankLine(trimmed: string): (r: string)
    ensures r <= trimmed
    ensures Find(trimmed, "\n\n").None? ==> r == trimmed
    ensures Find(trimmed, "\n\n").Some? ==> r == trimmed[..Find(trimmed, "\n\n").value]
  {
    match Find(trimmed, "\n\n")
    case Some(pos) => trimmed[..pos]
    case None => trimmed
  }

  /**
   * `parse_tool_response_yaml`: the whole reply if it normalises, otherwise
   * the part before the first blank line.
   */
  function ParseToolResponseYaml(parse: string -> Option<Yaml.Value>, trimmed: string): (r: Result<Yaml.Mapping, string>)
    ensures r.Ok? ==> |r.value| <= 1
    ensures r.Err? ==> r.error == "Invalid YAML"
  {
    var whole := ParseAndNormalizeYaml(parse, trimmed);
    if whole.Ok? then whole
    else ParseAndNormalizeYaml(parse, BeforeBlankLine(trimmed))
  }

  /** The retry rule: the whole reply first, then the prefix before "\n\n". */
  lemma ToolResponseRetry(parse: string -> Option<Yaml.Value>, trimmed: string)
    ensures var whole := ParseAndNormalizeYaml(parse, trimmed);
      && (whole.Ok? ==> ParseToolResponseYaml(parse, trimmed) == whole)
      && (whole.Err? && Find(trimmed, "\n\n").Some? ==>
            ParseToolResponseYaml(parse, trimmed)
              == ParseAndNormalizeYaml(parse, trimmed[..Find(trimmed, "\n\n").value]))
      && (Find(trimmed, "\n\n").None? ==> ParseToolResponseYaml(parse, trimmed) == whole)
  {
  }

  /** Normalising an already single-entry mapping leaves it unchanged (idempotence). */
  lemma NormalizeSingleEntry(parse: string -> Option<Yaml.Value>, input: string, k: Yaml.Value, v: Yaml.Value)
    requires parse(input) == Some(Yaml.Mapping([(k, v)]))
    ensures ParseToolResponseYaml(parse, input) == Ok([(k, v)])
  {
  }

  /** A three-entry reply is cut down to its first entry. */
  lemma NormalizeThreeEntries(parse: string -> Option<Yaml.Value>, input: string, a: (Yaml.Value, Yaml.Value),
                              b: (Yaml.Value, Yaml.Value), c: (Yaml.Value, Yaml.Value))
    requires parse(input) == Some(Yaml.Mapping([a, b, c]))
    ensures ParseToolResponseYaml(parse, input) == Ok([a])
  {
  }
}
