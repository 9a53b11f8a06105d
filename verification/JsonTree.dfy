/** JSON values. Object members are unordered, as gjson and sjson treat them. */
module JsonTree {
  datatype Json =
    | Null
    | Bool(b: bool)
    | Num(n: real)
    | Str(s: string)
    | Arr(items: seq<Json>)
    | Obj(fields: map<string, Json>)
}
