/** Python values as they occur in mock definitions: JSON plus byte strings. */
module Json {
  import opened Base64

  datatype Json =
    | Null
    | Bool(flag: bool)
    | Int(number: int)
    | Float(float: real)
    | Str(text: string)
    | Bytes(bytes: seq<byte>)
    | Arr(items: seq<Json>)
    | Dict(fields: Object)

  type Object = map<string, Json>
}
