/** JSON values as nlohmann::json holds them: an object is a `std::map`, so
    two objects are equal when they map the same keys to the same values. */
module Json {

  datatype Json =
    | Null
    | Bool(b: bool)
    | Int(n: int)
    | Float(x: real)
    | Str(s: string)
    | Arr(items: seq<Json>)
    | Obj(members: map<string, Json>)
}
