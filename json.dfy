/** A minimal JSON value: the part of the JSON library the core relies on. */
module JsonValue {

  /** Numbers are integers; objects map keys to values (keys are unique and
      unordered, as in the library's default object type). */
  datatype Json =
    | Null
    | Bool(b: bool)
    | Num(n: int)
    | Str(s: string)
    | Arr(items: seq<Json>)
    | Obj(fields: map<string, Json>)

  /** The property `key` of `j` read with `j[key]`: the member when `j` is
      an object that has it, `Null` otherwise. */
  function Field(j: Json, key: string): (v: Json)
    ensures v != Null ==> j.Obj? && key in j.fields && v == j.fields[key]
    ensures j.Obj? && key in j.fields ==> v == j.fields[key]
  {
    if j.Obj? && key in j.fields then j.fields[key] else Null
  }

  /** `j` holds a non-null value under `key`. */
  predicate Has(j: Json, key: string)
  {
    j.Obj? && key in j.fields && j.fields[key] != Null
  }
}
