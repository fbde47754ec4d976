/** JSON values; numbers are exact reals. */
module Json {

  datatype Value =
    | Null
    | Bool(flag: bool)
    | Num(number: real)
    | Str(text: string)
    | Arr(items: seq<Value>)
    | Obj(fields: map<string, Value>)
}
