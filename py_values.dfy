/**
 * The Python values the tools exchange: the JSON-like objects that YAML
 * loading, `Report.to_dict` and `model_dump` produce, and the built-in
 * exceptions the tools raise.
 */
module PyValues {
  import opened Wrappers

  /** A `dict` keeps its keys in insertion order; keys here are strings. */
  datatype Value =
    | Null
    | Bool(b: bool)
    | Int(i: int)
    | Str(s: string)
    | List(items: seq<Value>)
    | Dict(fields: seq<(string, Value)>)

  /** `d.get(key)`: the value stored under `key`, if any. */
  function Get(fields: seq<(string, Value)>, key: string): (r: Option<Value>)
    ensures r.Some? <==> exists i :: 0 <= i < |fields| && fields[i].0 == key
    ensures r.Some? ==> exists i :: 0 <= i < |fields| && fields[i] == (key, r.value)
  {
    if fields == [] then None
    else if fields[0].0 == key then Some(fields[0].1)
    else Get(fields[1..], key)
  }

  /** The entry at `i` is found when no earlier entry has its key. */
  lemma {:induction false} GetAt(fields: seq<(string, Value)>, i: int)
    requires 0 <= i < |fields|
    requires forall j :: 0 <= j < i ==> fields[j].0 != fields[i].0
    ensures Get(fields, fields[i].0) == Some(fields[i].1)
  {
    if i > 0 {
      GetAt(fields[1..], i - 1);
    }
  }

  /** `list(d.keys())`. */
  function Keys(fields: seq<(string, Value)>): seq<string> {
    seq(|fields|, i requires 0 <= i < |fields| => fields[i].0)
  }

  /**
   * The string stored under `key` in a mapping: `isinstance(data, dict)`
   * and `isinstance(data.get(key), str)` both hold.
   */
  function StrField(data: Value, key: string): Option<string> {
    if !data.Dict? then None
    else match Get(data.fields, key)
      case Some(Str(s)) => Some(s)
      case _ => None
  }

  /** `yaml.safe_load` is outside the model: it is passed in as a function. */
  type YamlLoader = string -> Value

  datatype Exception =
    | ValueError(message: string)
    | TypeError(message: string)
    | IndexError(message: string)
}
