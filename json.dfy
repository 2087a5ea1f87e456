/** JSON values as the Python handlers see them after `request.get_json()`,
    with the few pieces of Python semantics the handlers rely on: truthiness,
    `isinstance(x, (int, float))` (which admits `bool`), numeric equality across
    `bool`/`int`/`float`, and the `in` operator on whatever the body turned out
    to be. */
module Json {

  datatype Value =
    | Null
    | Bool(b: bool)
    | Int(i: int)
    | Float(r: real)
    | Str(s: string)
    | Array(items: seq<Value>)
    | Object(fields: map<string, Value>)

  /** Python's `bool(v)`: `None`, `False`, `0`, `0.0`, `""`, `[]` and `{}` are false. */
  predicate Truthy(v: Value)
  {
    match v
    case Null => false
    case Bool(b) => b
    case Int(i) => i != 0
    case Float(r) => r != 0.0
    case Str(s) => s != ""
    case Array(items) => items != []
    case Object(fields) => fields != map[]
  }

  /** `isinstance(v, (int, float))`; `bool` is a subclass of `int` in Python. */
  predicate IsNumber(v: Value)
  {
    v.Bool? || v.Int? || v.Float?
  }

  /** The number a numeric value stands for (`True == 1`, `False == 0`). */
  function NumberOf(v: Value): (x: real)
    requires IsNumber(v)
    ensures v.Int? ==> x == v.i as real
    ensures v.Float? ==> x == v.r
    ensures v.Bool? ==> x == if v.b then 1.0 else 0.0
  {
    match v
    case Bool(b) => if b then 1.0 else 0.0
    case Int(i) => i as real
    case Float(r) => r
  }

  /** Python's `v in options` for a tuple of integer options: true exactly when `v`
      is a number equal to one of them (so `True in (0, 1)` and `1.0 in (1, 2)` hold,
      while `"1" in (1, 2)` does not). */
  predicate InOptions(v: Value, options: set<int>)
  {
    IsNumber(v) && NumberOf(v) == NumberOf(v).Floor as real && NumberOf(v).Floor in options
  }

  lemma InOptionsMeansEqual(v: Value, options: set<int>)
    ensures InOptions(v, options) <==> IsNumber(v) && exists k :: k in options && NumberOf(v) == k as real
  {
    if IsNumber(v) && exists k :: k in options && NumberOf(v) == k as real {
      var k :| k in options && NumberOf(v) == k as real;
      assert NumberOf(v).Floor == k;
    }
  }

  /** Outcome of Python's `key in container`: a membership answer, or the
      `TypeError` raised when the container is not iterable. */
  datatype Membership = Member(present: bool) | NotIterable

  /** Python's `needle in hay` on two strings. */
  predicate IsSubstring(needle: string, hay: string)
  {
    (|needle| <= |hay| && hay[..|needle|] == needle) || (hay != [] && IsSubstring(needle, hay[1..]))
  }

  /** `key in container` for a string key: key lookup in a dict, element
      equality in a list, substring search in a string, `TypeError` otherwise. */
  function Contains(container: Value, key: string): (r: Membership)
    ensures container.Object? ==> r == Member(key in container.fields)
    ensures container.Null? || IsNumber(container) <==> r == NotIterable
  {
    match container
    case Object(fields) => Member(key in fields)
    case Array(items) => Member(Str(key) in items)
    case Str(s) => Member(IsSubstring(key, s))
    case _ => NotIterable
  }
}
