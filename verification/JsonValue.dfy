// JSON values as the translation code sees them: the part of a parsed document that
// `get`, `as_str`, `as_array`, `as_u64` and `as_bool` can observe. Reading JSON text and
// printing it back belong to a library and enter the project as parameters.
module JsonValue {
  import opened Wrappers

  datatype Json =
    | Null
    | Bool(b: bool)
    | Int(n: int)
    | Real(r: real)
    | Str(s: string)
    | Arr(items: seq<Json>)
    | Obj(fields: map<string, Json>)
  {
    // `Value::get(key)`: only objects have fields.
    function Get(key: string): Option<Json> {
      if Obj? && key in fields then Some(fields[key]) else None
    }

    function AsStr(): Option<string> {
      if Str? then Some(s) else None
    }

    function AsArr(): Option<seq<Json>> {
      if Arr? then Some(items) else None
    }

    function AsBool(): Option<bool> {
      if Bool? then Some(b) else None
    }

    // A number is read as an index only when it is an integer that fits 64 unsigned bits.
    function AsU64(): Option<nat> {
      if Int? && 0 <= n < 0x1_0000_0000_0000_0000 then Some(n) else None
    }

    // `get(key).and_then(as_str)`
    function GetStr(key: string): Option<string> {
      var v := Get(key);
      if v.Some? then v.value.AsStr() else None
    }

    // `get(key).and_then(as_array)`
    function GetArr(key: string): Option<seq<Json>> {
      var v := Get(key);
      if v.Some? then v.value.AsArr() else None
    }

    // `get(key).unwrap_or(&Value::Null)`
    function GetOrNull(key: string): Json {
      Get(key).GetOr(Null)
    }
  }

  // Reading JSON text; None is a syntax error.
  type JsonReader = string -> Option<Json>

  const EMPTY_OBJECT: Json := Obj(map[])

  // `Vec<String>::join(sep)`
  function Join(parts: seq<string>, sep: string): string {
    if |parts| == 0 then ""
    else if |parts| == 1 then parts[0]
    else parts[0] + sep + Join(parts[1..], sep)
  }

  // The reasoning text of a message or delta: `reasoning_content` shadows `reasoning`
  // even when it holds something that is not a string.
  function Reasoning(obj: Json): Option<string> {
    if obj.Get("reasoning_content").Some? then obj.GetStr("reasoning_content")
    else obj.GetStr("reasoning")
  }

  // OpenAI's `finish_reason` as an Anthropic `stop_reason`.
  function StopReason(finish: string): string {
    match finish
    case "stop" => "end_turn"
    case "length" => "max_tokens"
    case "tool_calls" => "tool_use"
    case _ => "end_turn"
  }
}
