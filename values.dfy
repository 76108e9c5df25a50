/**
 * The dynamically typed values that flow through the collector: what Go's
 * `interface{}` holds after `encoding/json` decoding, plus the two Go types
 * the collector itself stores (`int` and `[]string`).
 */
module Values {

  datatype Value =
    | Null                              // Go nil (also JSON null)
    | Bool(b: bool)
    | Num(f: real)                      // float64; every JSON number decodes to it
    | Str(s: string)
    | Arr(items: seq<Value>)            // []interface{}
    | Obj(fields: map<string, Value>)   // map[string]interface{}
    | Int(i: int)                       // Go int, never produced by the JSON decoder
    | Strings(ss: seq<string>)          // []string

  /** The attribute map of one stat (`Stat.data`). A nil map reads like an empty one. */
  type Data = map<string, Value>

  /** Go's `m[k]` on a `map[string]interface{}`: a missing key reads as nil. */
  function Get(m: map<string, Value>, k: string): Value
  {
    if k in m then m[k] else Null
  }
}
