/** JSON values and the accessors of the JSON library that the peer uses. */
module Json {

  datatype Json =
    | Null
    | Bool(b: bool)
    | Int(i: int)
    | Real(r: real)
    | Str(s: string)
    | Arr(items: seq<Json>)
    | Obj(members: map<string, Json>)

  /** Reading a member; a missing member reads as null. */
  function Get(j: Json, key: string): Json {
    if j.Obj? && key in j.members then j.members[key] else Null
  }

  predicate IsMember(j: Json, key: string) {
    j.Obj? && key in j.members
  }

  /** Assigning a member; null turns into an object first. */
  function Put(j: Json, key: string, value: Json): Json {
    Obj((if j.Obj? then j.members else map[])[key := value])
  }

  /** Appending an element; null turns into an array first. */
  function Append(j: Json, value: Json): Json {
    Arr((if j.Arr? then j.items else []) + [value])
  }

  /** Numeric and text conversions; null converts to 0 and to the empty text. */
  function AsInt(j: Json): int {
    if j.Int? then j.i else 0
  }

  function AsString(j: Json): string {
    if j.Str? then j.s else ""
  }
}
