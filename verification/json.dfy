/**
 * The JSON values that the identity provider and Microsoft Graph return, and
 * that the Flask session stores. Numbers are integers only.
 */
module Json {

  datatype Value =
    | Null
    | Bool(b: bool)
    | Num(n: int)
    | Str(s: string)
    | Arr(items: seq<Value>)
    | Obj(fields: map<string, Value>)
}
