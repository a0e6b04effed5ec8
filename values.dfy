/**
 * The run-time values the engine stores in component attributes and sends
 * over the network: Python's None, bool, int, float and str, pygame's
 * Vector2, Color and Rect, lists, tuples and dicts, plain objects (their
 * __dict__), callables and opaque objects such as Surfaces.
 */
module Values {
  datatype Value =
    | VNone
    | VBool(bval: bool)
    | VInt(i: int)
    | VFloat(f: real)
    | VStr(s: string)
    | VVec2(x: real, y: real)
    | VColor(r: int, g: int, b: int, a: int)
    | VRect(rx: int, ry: int, w: int, h: int)
    | VList(items: seq<Value>)
    | VTuple(elems: seq<Value>)
    | VDict(entries: map<string, Value>)
    /** An object with a __dict__: its class name and its attributes. */
    | VObject(cls: string, attrs: map<string, Value>)
    /** A function, lambda or bound method: callable, with an empty __dict__. */
    | VCallable(fname: string)
    /** An object without __dict__ that json cannot encode (a pygame Surface, a font). */
    | VOpaque(kind: string)

  /** isinstance(v, (int, float)); a bool is an int in Python. */
  predicate IsNumber(v: Value)
  {
    v.VBool? || v.VInt? || v.VFloat?
  }

  /** isinstance(v, int), bools included. */
  predicate IsIntLike(v: Value)
  {
    v.VBool? || v.VInt?
  }

  function AsInt(v: Value): (n: int)
    requires IsIntLike(v)
    ensures v.VInt? ==> n == v.i
    ensures v.VBool? ==> n == (if v.bval then 1 else 0)
  {
    if v.VInt? then v.i else if v.bval then 1 else 0
  }

  function AsReal(v: Value): (x: real)
    requires IsNumber(v)
    ensures v.VFloat? ==> x == v.f
    ensures IsIntLike(v) ==> x == AsInt(v) as real
  {
    if v.VFloat? then v.f else AsInt(v) as real
  }

  /** Python truthiness. */
  predicate Truthy(v: Value)
  {
    match v
    case VNone => false
    case VBool(b) => b
    case VInt(i) => i != 0
    case VFloat(f) => f != 0.0
    case VStr(s) => |s| > 0
    case VList(items) => |items| > 0
    case VTuple(elems) => |elems| > 0
    case VDict(m) => |m| > 0
    case _ => true
  }

  /** Python's int() of a float: truncation toward zero. */
  function Trunc(x: real): (n: int)
    ensures x >= 0.0 ==> n as real <= x < n as real + 1.0
    ensures x < 0.0 ==> n as real - 1.0 < x <= n as real
  {
    if x >= 0.0 then x.Floor else -((-x).Floor)
  }

  predicate IsByte(n: int)
  {
    0 <= n <= 255
  }

  /** Every Color inside v has components in 0..255, as pygame guarantees. */
  predicate WellFormed(v: Value)
  {
    match v
    case VColor(r, g, b, a) => IsByte(r) && IsByte(g) && IsByte(b) && IsByte(a)
    case VList(items) => forall i :: 0 <= i < |items| ==> WellFormed(items[i])
    case VTuple(elems) => forall i :: 0 <= i < |elems| ==> WellFormed(elems[i])
    case VDict(m) => forall k :: k in m ==> WellFormed(m[k])
    case VObject(_, attrs) => forall k :: k in attrs ==> WellFormed(attrs[k])
    case _ => true
  }

  /** What json can carry: None, bool, numbers, strings, lists and string-keyed dicts. */
  predicate IsJson(v: Value)
  {
    match v
    case VNone => true
    case VBool(_) => true
    case VInt(_) => true
    case VFloat(_) => true
    case VStr(_) => true
    case VList(items) => forall i :: 0 <= i < |items| ==> IsJson(items[i])
    case VDict(m) => forall k :: k in m ==> IsJson(m[k])
    case _ => false
  }

  predicate IsPrivate(name: string)
  {
    |name| > 0 && name[0] == '_'
  }

  /** The attributes of d that do not start with an underscore. */
  function PublicPart(d: map<string, Value>): (r: map<string, Value>)
    ensures forall k :: k in r <==> k in d && !IsPrivate(k)
    ensures forall k :: k in r ==> r[k] == d[k]
  {
    map k | k in d && !IsPrivate(k) :: d[k]
  }

  /** A list of two numbers, taken for a Vector2 by the network decoder. */
  predicate LooksLikeVector(items: seq<Value>)
  {
    |items| == 2 && IsNumber(items[0]) && IsNumber(items[1])
  }

  /** A list of four ints, taken for a Color by the network decoder. */
  predicate LooksLikeColor(items: seq<Value>)
  {
    |items| == 4 && IsIntLike(items[0]) && IsIntLike(items[1]) && IsIntLike(items[2]) && IsIntLike(items[3])
  }
}
