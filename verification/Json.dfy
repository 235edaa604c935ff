/**
  JSON values as the client sees them once the text has been lexed. Numbers
  keep the split between integers and floats; floats are real numbers.
 */
module Json {
  import opened Wrappers

  type Fields = map<string, Json>

  datatype Json =
    | Null
    | Bool(b: bool)
    | Int(n: int)
    | Float(x: real)
    | Str(s: string)
    | Arr(items: seq<Json>)
    | Obj(fields: Fields)

  type u32 = x: int | 0 <= x < 0x1_0000_0000
  type i32 = x: int | -0x8000_0000 <= x < 0x8000_0000
  type i64 = x: int | -0x8000_0000_0000_0000 <= x < 0x8000_0000_0000_0000

  /** What `m` holds under `k`, if anything. */
  function Get(m: Fields, k: string): Option<Json> {
    if k in m then Some(m[k]) else None
  }

  /** The string stored under `k`, or the empty string when it is missing or of another type. */
  function StringOrEmpty(m: Fields, k: string): string {
    if k in m && m[k].Str? then m[k].s else ""
  }

  /** The `id` of a frame when the frame is an object with a string there. */
  function IdOf(v: Json): (id: string)
    requires HasId(v)
  {
    v.fields["id"].s
  }

  predicate HasId(v: Json) {
    v.Obj? && "id" in v.fields && v.fields["id"].Str?
  }
}
