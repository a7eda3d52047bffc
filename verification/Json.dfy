/**
 JSON values as JSON.parse yields them, and JavaScript's views of them. A number is a finite double,
 kept as how many smallest positive doubles it is; an object's member names are distinct.
 */
module JsonValues {
  import opened Text

  datatype Json =
    | Null
    | Bool(b: bool)
    | Num(n: int)
    | Str(s: string)
    | Arr(items: seq<Json>)
    | Obj(members: seq<(string, Json)>)

  function Lookup(members: seq<(string, Json)>, name: string): Option<Json> {
    if members == [] then None
    else if members[0].0 == name then Some(members[0].1)
    else Lookup(members[1..], name)
  }

  /** `v?.name`, with None for undefined; only objects have the names the code asks for. */
  function Prop(v: Option<Json>, name: string): Option<Json> {
    if v.Some? && v.value.Obj? then Lookup(v.value.members, name) else None
  }

  predicate Truthy(v: Option<Json>) {
    match v
    case None => false
    case Some(Null) => false
    case Some(Bool(b)) => b
    case Some(Num(n)) => n != 0
    case Some(Str(s)) => s != ""
    case Some(_) => true
  }

  /** `===` on two parsed values: two distinct objects or arrays are never identical. */
  predicate Identical(v: Option<Json>, w: Option<Json>) {
    v == w && !(v.Some? && (v.value.Arr? || v.value.Obj?))
  }

  predicate IsText(v: Option<Json>, text: string) { v == Some(Str(text)) }

  /** `typeof v === "string" && v.trim() !== ""` */
  predicate Named(v: Option<Json>) { v.Some? && v.value.Str? && !Blank(v.value.s) }

  /** What JSON and the hash supply. The laws below are assumptions about them, not facts proved here. */
  datatype Codec = Codec(stringify: Json -> string, parse: string -> Option<Json>, hash: string -> string)
  {
    /** The text a checkpoint or registry file holds: pretty-printed JSON and a line end. */
    function Stored(v: Json): string { stringify(v) + "\n" }

    ghost predicate RoundTrips() { forall v: Json :: parse(Stored(v)) == Some(v) }

    ghost predicate CollisionFree() { forall a: string, b: string :: hash(a) == hash(b) ==> a == b }
  }
}
