/** JSON values, and the JSON library as an oracle: how text is parsed, rendered
    and checked against a schema is left open. */
module Json {
  import opened Wrappers

  datatype Json =
    | Null
    | Bool(b: bool)
    | Number(n: int)
    | Str(s: string)
    | Array(items: seq<Json>)
    | Object(fields: map<string, Json>)
  {
    function Get(key: string): Option<Json> {
      if Object? && key in fields then Some(fields[key]) else None
    }

    function AsString(): Option<string> {
      if Str? then Some(s) else None
    }
  }

  function Field(value: Option<Json>, key: string): Option<Json> {
    if value.Some? then value.value.Get(key) else None
  }

  function OrElse<T>(first: Option<T>, second: Option<T>): Option<T> {
    if first.Some? then first else second
  }

  function StringOf(value: Option<Json>): Option<string> {
    if value.Some? then value.value.AsString() else None
  }

  /** parse: a whole text as JSON. payload: the JSON found in an agent's answer,
      Null when there is none. render: a value as text. violation: why a value
      does not satisfy a schema, if it does not. */
  datatype JsonLibrary = JsonLibrary(
    parse: string -> Option<Json>,
    payload: string -> Json,
    render: Json -> string,
    violation: (Json, Json) -> Option<string>)
}
