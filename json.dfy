/** The JSON-like values a work item's field map holds. */
module Json {

  /** A field value: what Ruote keeps in a work item's `fields` hash. Numbers
      are integers only (see README, "Left out"). */
  datatype Value =
    | Null
    | Bool(b: bool)
    | Num(n: int)
    | Str(s: string)
    | Arr(elems: seq<Value>)
    | Obj(members: map<string, Value>)

  /** A work item's field map, keyed by string. */
  type Fields = map<string, Value>
}
