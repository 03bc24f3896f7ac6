/**
 * The parsed JSON document as the loaders see it through json.h: every node
 * has an optional name (object members are named, array elements and the
 * root are not), a type, and for objects and arrays the list of children in
 * document order (the first_child / next_sibling chain).
 */
module Json {
  import opened Wrappers

  datatype JsonValue =
    | Null
    | Bool(b: bool)
    | Int(i: int)
    | Float(f: real)
    | String(s: string)
    | Object(members: seq<Json>)
    | Array(elements: seq<Json>)

  datatype Json = Json(name: Option<string>, value: JsonValue)

  /**
   * The numeric code of a node's type, as written into log lines. The
   * parser's header is not part of this model; the codes assume its type
   * enum is declared in the order null, object, array, string, integer,
   * float, boolean.
   */
  function TypeCode(v: JsonValue): (code: nat)
    ensures code <= 6
    ensures code == 1 <==> v.Object?
    ensures code == 2 <==> v.Array?
  {
    match v
    case Null => 0
    case Object(_) => 1
    case Array(_) => 2
    case String(_) => 3
    case Int(_) => 4
    case Float(_) => 5
    case Bool(_) => 6
  }

  /** Objects and arrays are the containers the loaders walk into. */
  predicate IsContainer(j: Json) {
    j.value.Object? || j.value.Array?
  }

  /** The children of a container, in document order. */
  function Children(j: Json): seq<Json>
    requires IsContainer(j)
  {
    if j.value.Object? then j.value.members else j.value.elements
  }

  predicate IsNumber(j: Json) {
    j.value.Int? || j.value.Float?
  }

  /** A numeric leaf read as a number: int_value is converted and float_value taken as is, both exactly; the single-precision rounding of the source is not modelled. */
  function NumberValue(j: Json): real
    requires IsNumber(j)
  {
    if j.value.Int? then j.value.i as real else j.value.f
  }

  predicate HasName(j: Json, key: string) {
    j.name == Some(key)
  }

  /** All nodes of a document in pre-order: each node, then its children's subtrees in order. */
  function PreOrder(j: Json): (nodes: seq<Json>)
    decreases j
    ensures |nodes| >= 1 && nodes[0] == j
  {
    if IsContainer(j) then [j] + PreOrderSeq(Children(j)) else [j]
  }

  function PreOrderSeq(cs: seq<Json>): seq<Json>
    decreases cs
  {
    if cs == [] then [] else PreOrder(cs[0]) + PreOrderSeq(cs[1..])
  }
}
