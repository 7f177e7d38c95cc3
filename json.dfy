/**
 * The JSON values exchanged with the voice-chat host (serde_json's `Value`).
 * Objects are finite maps from keys to values; numbers are integers.
 */
module Json {

  datatype Json =
    | Null
    | Bool(b: bool)
    | Num(n: int)
    | Str(s: string)
    | Arr(items: seq<Json>)
    | Obj(fields: map<string, Json>)

  /**
   * `value[key]`: indexing an object by a key that it lacks, or indexing
   * anything that is not an object, yields `Null` rather than failing.
   */
  function Get(v: Json, key: string): Json
  {
    if v.Obj? && key in v.fields then v.fields[key] else Null
  }

  /** `value[k1][k2]` */
  function Get2(v: Json, k1: string, k2: string): Json
  {
    Get(Get(v, k1), k2)
  }

  /** `value == "text"`: true only for a JSON string with exactly that text. */
  predicate IsText(v: Json, text: string)
  {
    v == Str(text)
  }

  /** The empty object `{}`. */
  const EmptyObject: Json := Obj(map[])
}
