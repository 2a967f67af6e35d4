/** JSON values as Python's json module produces them, and the few pieces of
    Python semantics the handler relies on: dict.get, truthiness and the
    class names that appear in exception messages. */
module JsonValues {

  /** A decoded JSON document. Numbers are integers only; Python floats are
      not modelled. */
  datatype Json =
    | Null
    | Bool(b: bool)
    | Num(n: int)
    | Str(s: string)
    | Arr(items: seq<Json>)
    | Obj(fields: map<string, Json>)

  /** The empty dict literal `{}`. */
  const EmptyObject: Json := Obj(map[])

  /** Python's `d.get(key, default)`: the stored value when the key is
      present, whatever that value is, and the default only when it is absent. */
  function Get(d: map<string, Json>, key: string, default: Json): (r: Json)
    ensures key in d ==> r == d[key]
    ensures key !in d ==> r == default
  {
    if key in d then d[key] else default
  }

  /** The six falsy JSON values, written out. */
  ghost predicate IsFalsyLiteral(v: Json)
  {
    v == Null || v == Bool(false) || v == Num(0) || v == Str("")
    || v == Arr([]) || v == Obj(map[])
  }

  /** Python's `bool(v)`: false exactly on None, False, 0, the empty string,
      the empty list and the empty dict, true on everything else. */
  predicate Truthy(v: Json)
    ensures Truthy(v) <==> !IsFalsyLiteral(v)
  {
    match v
    case Null => false
    case Bool(b) => b
    case Num(n) => n != 0
    case Str(s) => |s| != 0
    case Arr(items) => |items| != 0
    case Obj(fields) => |fields| != 0
  }

  /** `type(v).__name__` for the Python object json.loads builds from `v`. */
  function TypeName(v: Json): string
  {
    match v
    case Null => "NoneType"
    case Bool(_) => "bool"
    case Num(_) => "int"
    case Str(_) => "str"
    case Arr(_) => "list"
    case Obj(_) => "dict"
  }
}
