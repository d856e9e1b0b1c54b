/**
 * The dynamically typed values that travel through the agent: parsed YAML
 * and INI configuration, LLM-supplied tool parameters and tool results.
 */
module Values {
  import opened Wrappers
  import opened Text

  datatype Value =
    | VNone
    | VBool(b: bool)
    | VInt(i: int)
    | VReal(r: real)
    | VStr(s: string)
    | VList(items: seq<Value>)
    | VDict(fields: map<string, Value>)

  /** A Python `dict` with string keys: a tool result, a configuration section. */
  type Dict = map<string, Value>

  /** Python truthiness. */
  predicate Truthy(v: Value)
  {
    match v
    case VNone => false
    case VBool(b) => b
    case VInt(i) => i != 0
    case VReal(r) => r != 0.0
    case VStr(s) => s != []
    case VList(items) => items != []
    case VDict(fields) => fields != map[]
  }

  /** `d.get(key)`. */
  function Get(d: Dict, key: string): Value
  {
    if key in d then d[key] else VNone
  }

  /** `d.get(key, default)`. */
  function GetOr(d: Dict, key: string, default: Value): Value
  {
    if key in d then d[key] else default
  }

  /** `a or b`. */
  function Or(a: Value, b: Value): (r: Value)
    ensures Truthy(r) <==> Truthy(a) || Truthy(b)
    ensures Truthy(a) ==> r == a
    ensures !Truthy(a) ==> r == b
  {
    if Truthy(a) then a else b
  }

  /** `isinstance(v, dict)`, giving the fields or an empty dictionary. */
  function AsDict(v: Value): Dict
  {
    if v.VDict? then v.fields else map[]
  }

  /** `isinstance(v, (int, float))` (a `bool` is an `int` in Python). */
  predicate IsNumber(v: Value)
  {
    v.VBool? || v.VInt? || v.VReal?
  }

  /** `str(v)`; a float, list or dict renders as a fixed marker rather than Python's repr. */
  function PyStr(v: Value): string
  {
    match v
    case VNone => "None"
    case VBool(b) => if b then "True" else "False"
    case VInt(i) => IntToString(i)
    case VReal(_) => "<float>"
    case VStr(s) => s
    case VList(_) => "<list>"
    case VDict(_) => "<dict>"
  }

  /** Rounds a real towards zero, as `int(x)` does for a float. */
  function Truncate(r: real): (n: int)
    ensures r >= 0.0 ==> n as real <= r < n as real + 1.0
    ensures r < 0.0 ==> n as real - 1.0 < r <= n as real
  {
    if r >= 0.0 then r.Floor else -((-r).Floor)
  }

  /** `int(v)`, or `None` where Python raises. */
  function PyInt(v: Value): Option<int>
  {
    match v
    case VBool(b) => Some(if b then 1 else 0)
    case VInt(i) => Some(i)
    case VReal(r) => Some(Truncate(r))
    case VStr(s) => ParseInt(s)
    case _ => None
  }

  /** `float(v)`, or `None` where Python raises. */
  function PyFloat(v: Value): Option<real>
  {
    match v
    case VBool(b) => Some(if b then 1.0 else 0.0)
    case VInt(i) => Some(i as real)
    case VReal(r) => Some(r)
    case VStr(s) => ParseReal(s)
    case _ => None
  }

  /** `int(str(v)) == v` for every integer value. */
  lemma PyIntOfPyStr(i: int)
    ensures PyInt(VStr(PyStr(VInt(i)))) == Some(i)
  {
    ParseIntOfString(i);
  }

  /** Wherever `int()` succeeds, `float()` succeeds with the same number. */
  lemma PyFloatExtendsPyInt(v: Value)
    requires PyInt(v).Some? && !v.VReal?
    ensures PyFloat(v) == Some(PyInt(v).value as real)
  {
    if v.VStr? {
      ParseRealExtendsParseInt(v.s);
    }
  }

  /** `type(v).__name__`, as Python's error messages name it. */
  function TypeName(v: Value): string
  {
    match v
    case VNone => "NoneType"
    case VBool(_) => "bool"
    case VInt(_) => "int"
    case VReal(_) => "float"
    case VStr(_) => "str"
    case VList(_) => "list"
    case VDict(_) => "dict"
  }

  /** The message of the `AttributeError` raised by `v.get(...)` on a value that is not a dictionary. */
  function NoGet(v: Value): string
  {
    "'" + TypeName(v) + "' object has no attribute 'get'"
  }

  /** The message of the `TypeError` raised by iterating over a value that does not iterate. */
  function NotIterable(v: Value): string
  {
    "'" + TypeName(v) + "' object is not iterable"
  }

  /** `str(v).strip()`, the normalisation the tools apply to identifiers and paths. */
  function StrippedStr(v: Value): string
  {
    Strip(PyStr(v))
  }
}
