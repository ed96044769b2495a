/**
  The decoded JSON values that the country records are made of, and the
  dictionary lookup with a default (`dict.get(key, default)`) that the
  transformation applies to them.
 */
module JsonValues {

  /** A decoded JSON value. Numbers are kept as their literal text: the
      transformation only passes them through and never computes with them. */
  datatype Json =
    | Null
    | Bool(b: bool)
    | Num(literal: string)
    | Str(s: string)
    | Arr(items: seq<Json>)
    | Obj(fields: map<string, Json>)

  /** `m.get(key, default)`: the stored value when the key is present (even a
      stored null), otherwise the default. */
  function Get(m: map<string, Json>, key: string, default: Json): Json
  {
    if key in m then m[key] else default
  }

  /** True when every item of a JSON array is a string. */
  predicate AllStrings(items: seq<Json>)
  {
    forall i | 0 <= i < |items| :: items[i].Str?
  }

  /** The texts of an array of JSON strings, in order. */
  function Texts(items: seq<Json>): (r: seq<string>)
    requires AllStrings(items)
  {
    seq(|items|, i requires 0 <= i < |items| => items[i].s)
  }
}
