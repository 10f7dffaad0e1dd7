/**
 * A JSON value, the structure that `JSON.stringify` writes and `JSON.parse` reads back.
 * The text form is not modelled: a value here stands for the text it is written as.
 */
module Json {

  datatype Value =
    | Null
    | Bool(b: bool)
    | Num(n: real)
    | Str(s: string)
    | Arr(elems: seq<Value>)
    | Obj(fields: map<string, Value>)
}
