/** serde_yaml's `Value`, with integer numbers only. */
module Yaml {
  import opened Wrappers
  import OrderedMap

  datatype Value =
    | Null
    | Bool(b: bool)
    | Number(n: int)
    | String(s: string)
    | Sequence(items: seq<Value>)
    | Mapping(entries: seq<(Value, Value)>)
    | Tagged(tag: string, inner: Value)
  {
    /** `as_str` */
    function AsStr(): Option<string> {
      if String? then Some(s) else None
    }
  }

  /** serde_yaml's `Mapping`: pairs in iteration order. */
  type Mapping = seq<(Value, Value)>

  /**
   * `value["field"]`: the entry under the string key `field` of a mapping,
   * `Null` for a missing key or a value that is not a mapping.
   */
  function Index(v: Value, field: string): Value {
    if v.Mapping? then OrderedMap.Get(v.entries, String(field)).GetOr(Null) else Null
  }

  /** `value["field"].as_str().unwrap_or("")`, the idiom of the prompt template. */
  function FieldText(v: Value, field: string): string {
    Index(v, field).AsStr().GetOr("")
  }
}
