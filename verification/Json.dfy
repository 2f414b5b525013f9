/** Parsed JSON, as the validators of hand-written files receive it. */
module Json {
  import opened Corpus

  /** A string that is an identifier made by `stableId` is `Key`; every other string is `Text`. */
  datatype Value =
    | Undefined
    | Null
    | Bool(b: bool)
    | Number(n: real)
    | Text(s: string)
    | Key(id: Id)
    | Array(items: seq<Value>)
    | Object(fields: map<string, Value>)

  /** `value[name]` of an object. */
  function Field(value: Value, name: string): Value {
    if value.Object? && name in value.fields then value.fields[name] else Undefined
  }
}
