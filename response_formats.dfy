/**
 * src/response_formats.rs: the three ways a model reply can be read as a
 * tool call (free YAML, free JSON, JSON with fixed `tool`/`tool_args`
 * keys), the YAML-to-JSON conversion they share, and the response-format
 * request sent for the fixed-key format.
 *
 * `serde_yaml::from_str` and `serde_json::from_str` are the parameters
 * `parseYaml` and `parseJson`: `None` when the text does not parse.
 */
module ResponseFormats {
  import opened Wrappers
  import opened Text
  import OrderedMap
  import Yaml
  import Json

  datatype ToolResponseFormat = Yaml | JsonVariableKeys | JsonFixedKeys {
    /** The lower-case spelling `from_str` accepts for the format. */
    function Name(): string {
      match this
      case Yaml => "yaml"
      case JsonVariableKeys => "json"
      case JsonFixedKeys => "json_fixed_key"
    }
  }

  /** `ToolResponseFormat::default` */
  function Default(): (f: ToolResponseFormat)
    ensures FromStr("yaml") == Ok(f)
    ensures FromStr(f.Name()) == Ok(f)
  {
    LowerOfLowercase("yaml");
    Yaml
  }

  /** `ToolResponseFormat::from_str`: case-insensitive, the error names the input. */
  function FromStr(s: string): (r: Result<ToolResponseFormat, string>)
    ensures r.Ok? <==> Lower(s) in {"yaml", "json", "json_fixed_key"}
    ensures r.Ok? ==> r.value.Name() == Lower(s)
    ensures r.Err? ==> r.error == "Invalid format: " + s + ". Valid options: yaml, json, json_fixed_key"
  {
    match Lower(s)
    case "yaml" => Ok(Yaml)
    case "json" => Ok(JsonVariableKeys)
    case "json_fixed_key" => Ok(JsonFixedKeys)
    case _ => Err("Invalid format: " + s + ". Valid options: yaml, json, json_fixed_key")
  }

  /** A text without capitals lower-cases to itself. */
  lemma LowerOfLowercase(s: string)
    requires forall i :: 0 <= i < |s| ==> !('A' <= s[i] <= 'Z') && s[i] != '\U{212A}'
    ensures Lower(s) == s
  {
  }

  /** Every format's own name parses back to it, whatever its capitalisation. */
  lemma FromStrRoundTrip(f: ToolResponseFormat, s: string)
    requires Lower(s) == f.Name()
    ensures FromStr(s) == Ok(f)
  {
  }

  /** The formats' names are lower case, so each names its own format. */
  lemma FromStrOfName(f: ToolResponseFormat)
    ensures FromStr(f.Name()) == Ok(f)
  {
    LowerOfLowercase(f.Name());
  }

  // ---------------------------------------------------------------------
  // convert_yaml_to_json

  const KeyNotString := "YAML key is not a string"
  const TaggedUnsupported := "Tagged YAML values are not supported"

  /**
   * What `convert_yaml_to_json` computes. Sequences and mappings are
   * converted left to right and the first failure is the result; a mapping
   * builds its object by `insert`.
   */
  function ToJson(v: Yaml.Value): Result<Json.Value, string>
    decreases v, 1
  {
    match v
    case Null => Ok(Json.Null)
    case Bool(b) => Ok(Json.Bool(b))
    case Number(n) => Ok(Json.Number(n))
    case String(s) => Ok(Json.String(s))
    case Sequence(items) =>
      (match ItemsToJson(items)
       case Ok(arr) => Ok(Json.Array(arr))
       case Err(e) => Err(e))
    case Mapping(entries) =>
      (match EntriesToJson(entries)
       case Ok(obj) => Ok(Json.Object(obj))
       case Err(e) => Err(e))
    case Tagged(_, _) => Err(TaggedUnsupported)
  }

  /** The conversion of the items of a sequence, in order. */
  function ItemsToJson(items: seq<Yaml.Value>): Result<seq<Json.Value>, string>
    decreases items, 0
  {
    if items == [] then Ok([])
    else
      match ItemsToJson(items[..|items| - 1])
      case Err(e) => Err(e)
      case Ok(arr) =>
        match ToJson(items[|items| - 1])
        case Err(e) => Err(e)
        case Ok(j) => Ok(arr + [j])
  }

  /** The conversion of the pairs of a mapping into an object, in order. */
  function EntriesToJson(entries: Yaml.Mapping): Result<Json.Map, string>
    decreases entries, 0
  {
    if entries == [] then Ok([])
    else
      var last := entries[|entries| - 1];
      assert last in entries;
      assert last.1 < last;
      AddEntry(EntriesToJson(entries[..|entries| - 1]), last.0, ToJson(last.1))
  }

  /**
   * One pass of the mapping loop: an earlier error stands, a key that is not
   * a string is an error, and otherwise the converted value is inserted
   * under the key unless its conversion failed.
   */
  function AddEntry(prev: Result<Json.Map, string>, key: Yaml.Value, converted: Result<Json.Value, string>)
    : Result<Json.Map, string>
  {
    match prev
    case Err(e) => Err(e)
    case Ok(obj) =>
      if !key.String? then Err(KeyNotString)
      else match converted
        case Err(e) => Err(e)
        case Ok(j) => Ok(OrderedMap.Insert(obj, key.s, j))
  }

  /**
   * `convert_yaml_to_json`: recursive, with a loop for each container. The
   * loop over a mapping's pairs is the same as `yaml_mapping_to_json_map`'s,
   * so the mapping case calls that method.
   */
  method ConvertYamlToJson(v: Yaml.Value) returns (r: Result<Json.Value, string>)
    ensures r == ToJson(v)
    decreases v, 1
  {
    match v
    case Null => r := Ok(Json.Null);
    case Bool(b) => r := Ok(Json.Bool(b));
    case Number(n) => r := Ok(Json.Number(n));
    case String(s) => r := Ok(Json.String(s));
    case Sequence(items) =>
      var arr := ConvertItems(items);
      r := if arr.Ok? then Ok(Json.Array(arr.value)) else Err(arr.error);
    case Mapping(entries) =>
      var obj := YamlMappingToJsonMap(entries);
      r := if obj.Ok? then Ok(Json.Object(obj.value)) else Err(obj.error);
    case Tagged(_, _) => r := Err(TaggedUnsupported);
  }

  /** The loop of `convert_yaml_to_json` over a sequence's items, stopping at the first error. */
  method ConvertItems(items: seq<Yaml.Value>) returns (r: Result<seq<Json.Value>, string>)
    ensures r == ItemsToJson(items)
    decreases items, 0
  {
    var arr: seq<Json.Value> := [];
    for i := 0 to |items|
      invariant ItemsToJson(items[..i]) == Ok(arr)
    {
      assert items[..i + 1][..i] == items[..i];
      var item := ConvertYamlToJson(items[i]);
      if item.Err? {
        r := Err(item.error);
        ItemsErrorSticks(items, i + 1);
        return;
      }
      arr := arr + [item.value];
    }
    assert items[..|items|] == items;
    r := Ok(arr);
  }

  /** Once a prefix of the items fails, the whole sequence fails with that error. */
  lemma {:induction false} ItemsErrorSticks(items: seq<Yaml.Value>, n: nat)
    requires n <= |items| && ItemsToJson(items[..n]).Err?
    ensures ItemsToJson(items) == ItemsToJson(items[..n])
    decreases |items| - n
  {
    if n < |items| {
      assert items[..n + 1][..n] == items[..n];
      ItemsErrorSticks(items, n + 1);
    } else {
      assert items[..n] == items;
    }
  }

  /** Once a prefix of the pairs fails, the whole mapping fails with that error. */
  lemma {:induction false} EntriesErrorSticks(entries: Yaml.Mapping, n: nat)
    requires n <= |entries| && EntriesToJson(entries[..n]).Err?
    ensures EntriesToJson(entries) == EntriesToJson(entries[..n])
    decreases |entries| - n
  {
    if n < |entries| {
      assert entries[..n + 1][..n] == entries[..n];
      EntriesErrorSticks(entries, n + 1);
    } else {
      assert entries[..n] == entries;
    }
  }

  /** `yaml_mapping_to_json_map`: the same loop over the pairs of a top-level mapping. */
  method YamlMappingToJsonMap(mapping: Yaml.Mapping) returns (r: Result<Json.Map, string>)
    ensures r == EntriesToJson(mapping)
    decreases mapping, 0
  {
    var obj: Json.Map := [];
    for i := 0 to |mapping|
      invariant EntriesToJson(mapping[..i]) == Ok(obj)
    {
      assert mapping[..i + 1][..i] == mapping[..i];
      var (key, val) := mapping[i];
      assert mapping[i] in mapping && val == mapping[i].1 && val < mapping[i];
      if key.String? {
        var jsonVal := ConvertYamlToJson(val);
        if jsonVal.Err? {
          r := Err(jsonVal.error);
          EntriesErrorSticks(mapping, i + 1);
          return;
        }
        obj := OrderedMap.Insert(obj, key.s, jsonVal.value);
      } else {
        r := Err(KeyNotString);
        EntriesErrorSticks(mapping, i + 1);
        return;
      }
    }
    assert mapping[..|mapping|] == mapping;
    r := Ok(obj);
  }

  /**
   * The values `convert_yaml_to_json` accepts, defined independently of the
   * conversion: no tag anywhere and only string keys in every mapping.
   */
  ghost predicate Convertible(v: Yaml.Value)
    decreases v
  {
    match v
    case Tagged(_, _) => false
    case Sequence(items) => forall i :: 0 <= i < |items| ==> Convertible(items[i])
    case Mapping(entries) =>
      forall i :: 0 <= i < |entries| ==> entries[i].0.String? && Convertible(entries[i].1)
    case _ => true
  }

  /** The conversion fails exactly on tags and on non-string keys, at any depth. */
  lemma {:induction false} ConvertFailsExactly(v: Yaml.Value)
    ensures ToJson(v).Ok? <==> Convertible(v)
    ensures ToJson(v).Err? ==>
              ToJson(v).error in {KeyNotString, TaggedUnsupported}
    decreases v, 1
  {
    match v
    case Sequence(items) => ItemsFailExactly(items);
    case Mapping(entries) => EntriesFailExactly(entries);
    case _ =>
  }

  lemma {:induction false} ItemsFailExactly(items: seq<Yaml.Value>)
    ensures ItemsToJson(items).Ok? <==> forall i :: 0 <= i < |items| ==> Convertible(items[i])
    ensures ItemsToJson(items).Err? ==>
              ItemsToJson(items).error in {KeyNotString, TaggedUnsupported}
    decreases items, 0
  {
    if items != [] {
      var init := items[..|items| - 1];
      ItemsFailExactly(init);
      ConvertFailsExactly(items[|items| - 1]);
      assert forall i :: 0 <= i < |init| ==> init[i] == items[i];
    }
  }

  lemma {:induction false} EntriesFailExactly(entries: Yaml.Mapping)
    ensures EntriesToJson(entries).Ok? <==>
              forall i :: 0 <= i < |entries| ==> entries[i].0.String? && Convertible(entries[i].1)
    ensures EntriesToJson(entries).Err? ==>
              EntriesToJson(entries).error in {KeyNotString, TaggedUnsupported}
    decreases entries, 0
  {
    if entries != [] {
      var last := entries[|entries| - 1];
      assert last in entries;
      assert last.1 < last;
      EntriesFailExactly(entries[..|entries| - 1]);
      ConvertFailsExactly(last.1);
      ConvertibleSnoc(entries);
    }
  }

  /** Every pair is convertible exactly when the earlier ones and the last one are. */
  lemma ConvertibleSnoc(entries: Yaml.Mapping)
    requires entries != []
    ensures var n := |entries| - 1;
      (forall i :: 0 <= i < |entries| ==> entries[i].0.String? && Convertible(entries[i].1))
      <==> (&& (forall i :: 0 <= i < n ==> entries[..n][i].0.String? && Convertible(entries[..n][i].1))
            && entries[n].0.String? && Convertible(entries[n].1))
  {
    var n := |entries| - 1;
    assert forall i :: 0 <= i < n ==> entries[..n][i] == entries[i];
  }

  /**
   * Scalars keep their constructor and payload, and a sequence is converted
   * element by element, with the same length and order.
   */
  lemma ConvertPreservesShape(v: Yaml.Value)
    ensures v.Null? ==> ToJson(v) == Ok(Json.Null)
    ensures v.Bool? ==> ToJson(v) == Ok(Json.Bool(v.b))
    ensures v.String? ==> ToJson(v) == Ok(Json.String(v.s))
    ensures v.Sequence? && ToJson(v).Ok? ==>
              ToJson(v).value.Array? && |ToJson(v).value.items| == |v.items|
              && forall i :: 0 <= i < |v.items| ==> ToJson(v.items[i]) == Ok(ToJson(v).value.items[i])
  {
    if v.Sequence? && ToJson(v).Ok? {
      ItemsPointwise(v.items);
    }
  }

  lemma {:induction false} ItemsPointwise(items: seq<Yaml.Value>)
    requires ItemsToJson(items).Ok?
    ensures |ItemsToJson(items).value| == |items|
    ensures forall i :: 0 <= i < |items| ==> ToJson(items[i]) == Ok(ItemsToJson(items).value[i])
  {
    if items != [] {
      var init := items[..|items| - 1];
      ItemsPointwise(init);
      assert forall i :: 0 <= i < |init| ==> init[i] == items[i];
    }
  }

  /**
   * A mapping with distinct keys becomes an object with the same keys, in the
   * same order, each with its converted value.
   */
  lemma {:induction false} EntriesPointwise(entries: Yaml.Mapping)
    requires OrderedMap.UniqueKeys(entries) && EntriesToJson(entries).Ok?
    ensures SameEntries(entries, EntriesToJson(entries).value)
  {
    if entries != [] {
      var init := entries[..|entries| - 1];
      var last := entries[|entries| - 1];
      EntriesSnoc(entries);
      UniqueInit(entries);
      EntriesPointwise(init);
      assert init + [last] == entries;
      EntriesPointwiseStep(init, last, EntriesToJson(init).value, ToJson(last.1).value);
    }
  }

  /** The inductive step: what holds of the earlier pairs extends to the last one. */
  lemma EntriesPointwiseStep(init: Yaml.Mapping, last: (Yaml.Value, Yaml.Value), obj: Json.Map, j: Json.Value)
    requires OrderedMap.UniqueKeys(init + [last]) && SameEntries(init, obj)
    requires last.0.String? && ToJson(last.1) == Ok(j)
    ensures SameEntries(init + [last], OrderedMap.Insert(obj, last.0.s, j))
  {
    NewLastKey(init, last, obj);
    OrderedMap.InsertNewKey(obj, last.0.s, j);
    SameEntriesSnoc(init, obj, last, j);
  }

  /**
   * The object has the mapping's keys, in the same order, each with its
   * converted value.
   */
  ghost predicate SameEntries(entries: Yaml.Mapping, obj: Json.Map) {
    && |obj| == |entries|
    && forall i :: 0 <= i < |entries| ==>
         entries[i].0 == Yaml.String(obj[i].0) && ToJson(entries[i].1) == Ok(obj[i].1)
  }

  lemma SameEntriesSnoc(init: Yaml.Mapping, obj: Json.Map, last: (Yaml.Value, Yaml.Value), j: Json.Value)
    requires SameEntries(init, obj) && last.0.String? && ToJson(last.1) == Ok(j)
    ensures SameEntries(init + [last], obj + [(last.0.s, j)])
  {
    var entries := init + [last];
    var res := obj + [(last.0.s, j)];
    forall i | 0 <= i < |entries|
      ensures entries[i].0 == Yaml.String(res[i].0) && ToJson(entries[i].1) == Ok(res[i].1)
    {
      if i < |init| {
        assert res[i] == obj[i] && entries[i] == init[i];
      }
    }
  }

  /** With distinct keys, the last key is not among those of the earlier pairs' object. */
  lemma NewLastKey(init: Yaml.Mapping, last: (Yaml.Value, Yaml.Value), obj: Json.Map)
    requires OrderedMap.UniqueKeys(init + [last]) && SameEntries(init, obj) && last.0.String?
    ensures last.0.s !in OrderedMap.Keys(obj)
  {
    var entries := init + [last];
    forall i | 0 <= i < |obj| ensures OrderedMap.Keys(obj)[i] != last.0.s {
      assert entries[i] == init[i] && entries[|init|] == last;
      assert entries[i].0 != entries[|init|].0;
    }
  }

  /** One step of the conversion: the last pair is converted and inserted. */
  lemma EntriesSnoc(entries: Yaml.Mapping)
    requires entries != [] && EntriesToJson(entries).Ok?
    ensures var last := entries[|entries| - 1];
      && EntriesToJson(entries[..|entries| - 1]).Ok?
      && last.0.String? && ToJson(last.1).Ok?
      && EntriesToJson(entries).value
         == OrderedMap.Insert(EntriesToJson(entries[..|entries| - 1]).value, last.0.s, ToJson(last.1).value)
  {
    var last := entries[|entries| - 1];
    assert EntriesToJson(entries) == AddEntry(EntriesToJson(entries[..|entries| - 1]), last.0, ToJson(last.1));
    AddEntryOk(EntriesToJson(entries[..|entries| - 1]), last.0, ToJson(last.1));
  }

  lemma AddEntryOk(prev: Result<Json.Map, string>, key: Yaml.Value, converted: Result<Json.Value, string>)
    requires AddEntry(prev, key, converted).Ok?
    ensures prev.Ok? && key.String? && converted.Ok?
    ensures AddEntry(prev, key, converted).value == OrderedMap.Insert(prev.value, key.s, converted.value)
  {
  }

  /** Dropping the last pair keeps the keys distinct. */
  lemma UniqueInit<K, V>(m: seq<(K, V)>)
    requires m != [] && OrderedMap.UniqueKeys(m)
    ensures OrderedMap.UniqueKeys(m[..|m| - 1])
  {
    var init := m[..|m| - 1];
    forall i, j | 0 <= i < j < |init| ensures init[i].0 != init[j].0 {
      assert init[i] == m[i] && init[j] == m[j];
    }
  }

  /** The conversion never makes an object larger than its mapping. */
  lemma {:induction false} EntriesToJsonSize(entries: Yaml.Mapping)
    requires EntriesToJson(entries).Ok?
    ensures |EntriesToJson(entries).value| <= |entries|
  {
    if entries != [] {
      EntriesToJsonSize(entries[..|entries| - 1]);
      var obj := EntriesToJson(entries[..|entries| - 1]).value;
      var last := entries[|entries| - 1];
      assert |OrderedMap.Keys(OrderedMap.Insert(obj, last.0.s, ToJson(last.1).value))| <= |obj| + 1;
    }
  }

  // ---------------------------------------------------------------------
  // The three parsers

  /**
   * `YamlParser::parse`: a mapping with more than one pair is cut down to its
   * first pair, then converted; a conversion error is returned as it is.
   */
  function YamlParse(parseYaml: string -> Option<Yaml.Value>, input: string): Result<Json.Map, string> {
    match parseYaml(input)
    case Some(Mapping(mapping)) =>
      if |mapping| > 1 then EntriesToJson(OrderedMap.Insert([], mapping[0].0, mapping[0].1))
      else EntriesToJson(mapping)
    case _ => Err("Invalid YAML")
  }

  /** `JsonVariableKeysParser::parse`: an object with more than one field keeps its first. */
  function JsonVariableKeysParse(parseJson: string -> Option<Json.Value>, input: string): Result<Json.Map, string> {
    match parseJson(input)
    case Some(Object(fields)) =>
      if |fields| > 1 then Ok(OrderedMap.Insert([], fields[0].0, fields[0].1))
      else Ok(fields)
    case _ => Err("Invalid JSON")
  }

  /** `JsonFixedKeysParser::parse`: `{"tool": t, "tool_args": a}` becomes `{t: a}`. */
  function JsonFixedKeysParse(parseJson: string -> Option<Json.Value>, input: string): Result<Json.Map, string> {
    match parseJson(input)
    case Some(Object(fields)) =>
      var tool := OrderedMap.Get(fields, "tool");
      var args := OrderedMap.Get(fields, "tool_args");
      if tool.Some? && tool.value.String? && args.Some? then Ok(OrderedMap.Insert([], tool.value.s, args.value))
      else Err("Invalid JSON")
    case _ => Err("Invalid JSON")
  }

  /** `parse_tool_response`: the parser of the chosen format. */
  function ParseToolResponse(format: ToolResponseFormat, parseYaml: string -> Option<Yaml.Value>,
                             parseJson: string -> Option<Json.Value>, input: string): (r: Result<Json.Map, string>)
    ensures r.Ok? ==> |r.value| <= 1
  {
    match format
    case Yaml =>
      YamlParseFirstEntry(parseYaml, input);
      YamlParse(parseYaml, input)
    case JsonVariableKeys => JsonVariableKeysParse(parseJson, input)
    case JsonFixedKeys => JsonFixedKeysParse(parseJson, input)
  }

  /**
   * The YAML parser's result is decided by the first pair alone: an empty
   * mapping gives an empty map, a non-string first key or an unconvertible
   * first value an error, and otherwise the one converted pair.
   */
  lemma YamlParseFirstEntry(parseYaml: string -> Option<Yaml.Value>, input: string)
    ensures parseYaml(input).Some? && parseYaml(input).value.Mapping? ==>
      var m := parseYaml(input).value.entries;
      YamlParse(parseYaml, input) ==
        if m == [] then Ok([])
        else if !m[0].0.String? then Err(KeyNotString)
        else match ToJson(m[0].1)
          case Ok(j) => Ok([(m[0].0.s, j)])
          case Err(e) => Err(e)
    ensures !(parseYaml(input).Some? && parseYaml(input).value.Mapping?) ==>
      YamlParse(parseYaml, input) == Err("Invalid YAML")
  {
    if parseYaml(input).Some? && parseYaml(input).value.Mapping? {
      var m := parseYaml(input).value.entries;
      if m != [] {
        assert OrderedMap.Insert([], m[0].0, m[0].1) == [m[0]];
        if |m| == 1 {
          assert m == [m[0]];
        }
        assert YamlParse(parseYaml, input) == EntriesToJson([m[0]]);
        SinglePair(m[0]);
      }
    }
  }

  /** Converting a one-pair mapping. */
  lemma SinglePair(p: (Yaml.Value, Yaml.Value))
    ensures EntriesToJson([p]) ==
      if !p.0.String? then Err(KeyNotString)
      else match ToJson(p.1)
        case Ok(j) => Ok([(p.0.s, j)])
        case Err(e) => Err(e)
  {
    assert [p][..0] == [];
  }

  /**
   * The variable-key JSON parser keeps the first field of an object with
   * more than one, returns smaller objects as they are, and rejects the rest.
   */
  lemma JsonVariableKeysFirstEntry(parseJson: string -> Option<Json.Value>, input: string)
    ensures var r := JsonVariableKeysParse(parseJson, input);
      && (r.Err? <==> !(parseJson(input).Some? && parseJson(input).value.Object?))
      && (r.Err? ==> r.error == "Invalid JSON")
      && (r.Ok? ==> var m := parseJson(input).value.fields;
            && |r.value| <= 1 && r.value <= m
            && (|m| <= 1 ==> r.value == m)
            && (|m| > 1 ==> r.value == [m[0]]))
  {
  }

  /**
   * The fixed-key parser succeeds exactly when `tool` holds a string and
   * `tool_args` is present, and then gives the one-pair map `{tool: tool_args}`.
   */
  lemma JsonFixedKeysRule(parseJson: string -> Option<Json.Value>, input: string)
    ensures var r := JsonFixedKeysParse(parseJson, input);
      && (r.Ok? <==> parseJson(input).Some? && parseJson(input).value.Object?
                     && Json.Index(parseJson(input).value, "tool").String?
                     && OrderedMap.Get(parseJson(input).value.fields, "tool_args").Some?)
      && (r.Err? ==> r.error == "Invalid JSON")
      && (r.Ok? ==> r.value == [(Json.Index(parseJson(input).value, "tool").s,
                                 Json.Index(parseJson(input).value, "tool_args"))])
  {
  }

  // ---------------------------------------------------------------------
  // response_format

  /** The `ResponseFormat::JsonSchema` request. */
  datatype JsonSchema = JsonSchema(name: string, schema: Json.Value, strict: bool, description: string)

  /** The schema: `tool` one of the tool names, `tool_args` an object of strings and numbers. */
  function ToolCallSchema(toolNames: seq<Json.Value>): Json.Value {
    Json.Object([
      ("type", Json.String("object")),
      ("properties", Json.Object([("tool", ToolProperty(toolNames)), ("tool_args", ArgsProperty())])),
      ("required", Json.Array([Json.String("tool"), Json.String("tool_args")])),
      ("additionalProperties", Json.Bool(false))])
  }

  function ToolProperty(toolNames: seq<Json.Value>): Json.Value {
    Json.Object([("type", Json.String("string")), ("enum", Json.Array(toolNames))])
  }

  function ArgsProperty(): Json.Value {
    Json.Object([
      ("type", Json.String("object")),
      ("additionalProperties", Json.Object([
        ("anyOf", Json.Array([Json.Object([("type", Json.String("string"))]),
                              Json.Object([("type", Json.String("number"))])]))]))])
  }

  /** `response_format`: a strict JSON schema for the fixed-key format, nothing otherwise. */
  function ResponseFormat(format: ToolResponseFormat, toolNames: seq<Json.Value>): (r: Option<JsonSchema>)
    ensures r.Some? <==> format == JsonFixedKeys
  {
    match format
    case JsonFixedKeys =>
      Some(JsonSchema("tool_call", ToolCallSchema(toolNames), true, "A single tool call"))
    case _ => None
  }

  /**
   * The requested schema is named "tool_call", is strict, restricts `tool`
   * to the given names and requires both `tool` and `tool_args`: the two
   * fields the fixed-key parser reads.
   */
  lemma ResponseFormatSchema(toolNames: seq<Json.Value>)
    ensures var r := ResponseFormat(JsonFixedKeys, toolNames).value;
      && r.name == "tool_call" && r.strict
      && Json.Index(Json.Index(Json.Index(r.schema, "properties"), "tool"), "enum") == Json.Array(toolNames)
      && Json.Index(r.schema, "required") == Json.Array([Json.String("tool"), Json.String("tool_args")])
      && Json.Index(r.schema, "additionalProperties") == Json.Bool(false)
  {
    var fields := ToolCallSchema(toolNames).fields;
    assert fields[1..][1..] == [fields[2], fields[3]];
    assert fields[1..][1..][1..] == [fields[3]];
    assert OrderedMap.Get(fields[1..][1..], "required") == Some(fields[2].1);
    assert OrderedMap.Get(fields[1..], "required") == Some(fields[2].1);
    assert OrderedMap.Get(fields, "required") == Some(fields[2].1);
    assert OrderedMap.Get(fields[1..][1..][1..], "additionalProperties") == Some(fields[3].1);
    assert OrderedMap.Get(fields[1..][1..], "additionalProperties") == Some(fields[3].1);
    assert OrderedMap.Get(fields[1..], "additionalProperties") == Some(fields[3].1);
    assert OrderedMap.Get(fields, "additionalProperties") == Some(fields[3].1);
    assert OrderedMap.Get(fields, "properties") == Some(fields[1].1);
    var props := fields[1].1.fields;
    assert props[1..] == [props[1]];
    assert OrderedMap.Get(props, "tool") == Some(ToolProperty(toolNames));
    var tool := ToolProperty(toolNames).fields;
    assert tool[1..] == [tool[1]];
    assert OrderedMap.Get(tool, "enum") == Some(Json.Array(toolNames));
  }
}
