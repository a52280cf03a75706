/** serde_json's `Value`, with integer numbers only. */
module Json {
  import opened Wrappers
  import OrderedMap

  datatype Value =
    | Null
    | Bool(b: bool)
    | Number(n: int)
    | String(s: string)
    | Array(items: seq<Value>)
    | Object(fields: seq<(string, Value)>)
  {
    /** `as_str` */
    function AsStr(): Option<string> {
      if String? then Some(s) else None
    }
  }

  /** serde_json's `Map<String, Value>`, pairs in iteration order. */
  type Map = seq<(string, Value)>

  /** `value["key"]`: `Null` for a missing key or a value that is not an object. */
  function Index(v: Value, key: string): Value {
    if v.Object? then OrderedMap.Get(v.fields, key).GetOr(Null) else Null
  }

  /** `args["key"].as_str().unwrap_or("")`, how every tool reads its arguments. */
  function StrArg(v: Value, key: string): string {
    Index(v, key).AsStr().GetOr("")
  }
}
