/**
  Rows as the store sees them: a JSON object from column name to value. The
  backend writes such rows with `insert`/`update` and reads them back with
  `select`.
 */
module Rows {
  datatype Value =
    | Null
    | Bool(b: bool)
    | Int(i: int)
    | Str(s: string)
    | Arr(items: seq<Value>)
    | Obj(fields: map<string, Value>)

  type Row = map<string, Value>
}
