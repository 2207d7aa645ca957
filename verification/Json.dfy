/** JSON values, as `serde_json::Value` holds them. Printing and parsing are parameters of the
    members that need them. */
module Json {
  import opened Text

  datatype Value =
    | Null
    | Bool(b: bool)
    | Number(text: string)
    | Str(s: string)
    | Arr(items: seq<Value>)
    | Obj(fields: seq<(string, Value)>)

  const EMPTY_OBJECT: Value := Obj([])

  /** The two halves of the JSON library the translators call on argument values. */
  datatype Codec = Codec(show: Value -> string, read: string -> Option<Value>) {
    /** Parsing undoes printing for this value. It need not for every value of the type: a number whose
        text is none, say, is no JSON. */
    predicate Keeps(v: Value) {
      read(show(v)) == Some(v)
    }
  }
}
