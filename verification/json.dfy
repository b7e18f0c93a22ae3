/** Values held by a style configuration dictionary, and by the parsed JSON of a custom style file. */
module Json {

  /** A Python value as produced by `json.loads`, or stored by `MapStyle.get_config`:
      the JSON null, booleans, integers, floats (as exact decimals), strings, arrays and objects. */
  datatype Value =
    | Null
    | Bool(b: bool)
    | Int(i: int)
    | Float(x: real)
    | Str(s: string)
    | Array(items: seq<Value>)
    | Object(fields: map<string, Value>)

  /** Python truthiness: `None`, `False`, zero, and empty strings, lists and dicts are false. */
  predicate Truthy(v: Value) {
    match v
    case Null => false
    case Bool(b) => b
    case Int(i) => i != 0
    case Float(x) => x != 0.0
    case Str(s) => s != ""
    case Array(items) => items != []
    case Object(fields) => fields != map[]
  }

  /** `config.get(key)` used as a condition: a missing key reads as `None`, which is false. */
  predicate Enabled<K>(config: map<K, Value>, key: K) {
    key in config && Truthy(config[key])
  }

  /** `config.get(key, default)`. */
  function GetOr<K>(config: map<K, Value>, key: K, default: Value): Value {
    if key in config then config[key] else default
  }
}
