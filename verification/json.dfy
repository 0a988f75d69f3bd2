/** The parsed JSON body of an upstream reply, as Python's json decoder hands
    it over, and the two Python operations the program applies to it:
    truthiness and `dict.get`. */
module Json {
  import opened Wrappers

  /** A JSON document.  Objects become dicts keyed by strings; the upstream
      Floats are left out: every operation the program applies to a number
      (truthiness, `len`, `.get`, comparison with a string) treats a float
      exactly as it treats an integer, so `Num` stands for both. */
  datatype Value =
    | Null
    | Bool(b: bool)
    | Num(n: int)
    | Str(s: string)
    | List(elems: seq<Value>)
    | Obj(fields: map<string, Value>)

  /** Python truthiness: `None`, `False`, `0` and every empty container are falsy. */
  function Truthy(v: Value): (t: bool)
    ensures !t <==> v in {Null, Bool(false), Num(0), Str(""), List([]), Obj(map[])}
  {
    match v
    case Null => false
    case Bool(b) => b
    case Num(n) => n != 0
    case Str(s) => |s| > 0
    case List(xs) => |xs| > 0
    case Obj(m) => |m| > 0
  }

  /** Python's `dict.get` with a default.  Only a dict has a `get` method; on any other
      value the call raises AttributeError. */
  function Get(v: Value, key: string, otherwise: Value): (r: Raising<Value>)
    ensures r.Returns? <==> v.Obj?
    ensures v.Obj? && key in v.fields ==> r.value == v.fields[key]
    ensures v.Obj? && key !in v.fields ==> r.value == otherwise
  {
    match v
    case Obj(m) => Returns(if key in m then m[key] else otherwise)
    case _ => Raises
  }
}
