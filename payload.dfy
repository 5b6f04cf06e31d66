/**
 * A decoded JSON message, as `json.loads` hands it to the listeners, and the two dictionary
 * operations they use on it. Decoding itself is not modelled: a listener receives either a
 * decoded value or `None` for text that is not JSON.
 */
module Payload {
  import opened Wrappers

  datatype Value =
    | Null
    | Bool(b: bool)
    | Number(x: real)
    | Str(s: string)
    | Array(items: seq<Value>)
    | Object(fields: map<string, Value>)

  /**
   * Python's `float(v)` on a decoded value: numbers convert, booleans are the integers 1 and 0,
   * strings go through `parse` (which stands for Python's float literal syntax, including its
   * white-space handling), and `None`, lists and dictionaries raise.
   */
  function ToFloat(v: Value, parse: string -> Option<real>): (r: Option<real>)
    ensures v.Number? ==> r == Some(v.x)
    ensures (v.Null? || v.Array? || v.Object?) ==> r.None?
  {
    match v
    case Number(x) => Some(x)
    case Bool(b) => Some(if b then 1.0 else 0.0)
    case Str(s) => parse(s)
    case _ => None
  }

  /** `data.get(key, default)` on a dictionary. */
  function Get(fields: map<string, Value>, key: string, default: Value): (r: Value)
    ensures key in fields ==> r == fields[key]
    ensures key !in fields ==> r == default
  {
    if key in fields then fields[key] else default
  }

  /**
   * What a listener's `_process_message` did with one message. Only `Deliver` invokes the
   * callback; every other outcome is a log line at most, and none of them raises.
   */
  datatype Handling =
    | Deliver(value: real, tag: Value)   // callback(value, tag)
    | OutOfRange(value: real)            // parsed, but outside the accepted range
    | Heartbeat                          // a recognised keep-alive
    | ApiError                           // the feed reported an error
    | Malformed                          // not JSON, or the field would not convert
    | Ignored                            // nothing the listener looks for
}
