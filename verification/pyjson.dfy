/** Values as Python's `json.loads` produces them (dict, list, str, int/float,
    bool, None), with the three pieces of Python semantics the service relies
    on: truthiness, `dict.get(key, default)` and `x or y`. */
module PyJson {
  import opened Wrappers

  datatype Json =
    | Null
    | Bool(b: bool)
    | Num(n: real)
    | Str(s: string)
    | Arr(elems: seq<Json>)
    | Obj(fields: map<string, Json>)

  /** Python's `bool(x)` on a decoded JSON value. */
  predicate Truthy(j: Json) {
    match j
    case Null => false
    case Bool(b) => b
    case Num(n) => n != 0.0
    case Str(s) => |s| > 0
    case Arr(a) => |a| > 0
    case Obj(m) => |m| > 0
  }

  /** Python's `x or y`. */
  function Or(x: Json, y: Json): Json {
    if Truthy(x) then x else y
  }

  /** Python's `d.get(k, default)`. */
  function Get(m: map<string, Json>, k: string, default: Json): Json {
    if k in m then m[k] else default
  }

  /** A keyword argument that is either passed or omitted. */
  function Lookup(m: map<string, Json>, k: string): Option<Json> {
    if k in m then Some(m[k]) else None
  }

  /** The decoded values Python reads as false are exactly `None`, `False`,
      `0`, `""`, `[]` and `{}`. */
  lemma FalsyValues(j: Json)
    ensures !Truthy(j) <==> j in {Null, Bool(false), Num(0.0), Str(""), Arr([]), Obj(map[])}
  {
  }

  /** `x or y` is one of its operands, the first when that one is true-like,
      and is true-like exactly when either operand is. */
  lemma OrLaws(x: Json, y: Json)
    ensures Or(x, y) == x || Or(x, y) == y
    ensures Truthy(x) ==> Or(x, y) == x
    ensures !Truthy(x) ==> Or(x, y) == y
    ensures Truthy(Or(x, y)) <==> Truthy(x) || Truthy(y)
    ensures Or(Or(x, y), y) == Or(x, y)
  {
  }

  /** `d.get(k, default)` is the stored value when the key is present and the
      default otherwise; an explicit `null` under the key is kept. */
  lemma GetLaws(m: map<string, Json>, k: string, default: Json)
    ensures Get(m, k, default) == Lookup(m, k).GetOr(default)
    ensures k in m && m[k] == Null ==> Get(m, k, default) == Null
  {
  }
}
