/**
 * The slice of Python's value model that the clients touch: JSON-like
 * values received from the tool server, exceptions, truthiness and
 * `dict.get`.
 */
module Python {
  import opened Wrappers

  /** A Python value as it reaches the client. Dict keys are strings. */
  datatype PyValue =
    | PyNone
    | PyBool(b: bool)
    | PyInt(i: int)
    | PyStr(s: string)
    | PyList(items: seq<PyValue>)
    | PyDict(entries: map<string, PyValue>)
    | PyObject(typeName: string)  // any other object, e.g. a protocol model instance

  /** A raised exception: its class name and `str(e)`. */
  datatype PyException = PyException(kind: string, message: string)

  const Cancellation := PyException("CancelledError", "")

  /**
   * Whether `except Exception` catches `e`: the four built-in classes that
   * derive from `BaseException` only (`CancelledError` among them since
   * Python 3.8) escape it.
   */
  predicate IsException(e: PyException) {
    e.kind !in {"CancelledError", "KeyboardInterrupt", "SystemExit", "GeneratorExit"}
  }

  /** Truthiness of an optional string (`if s:`): None and "" are false. */
  predicate Truthy(s: Option<string>) {
    s.Some? && s.value != ""
  }

  /** Truthiness of a value; objects without __bool__/__len__ are true. */
  predicate IsTrue(v: PyValue) {
    match v
    case PyNone => false
    case PyBool(b) => b
    case PyInt(i) => i != 0
    case PyStr(s) => s != ""
    case PyList(items) => items != []
    case PyDict(entries) => entries != map[]
    case PyObject(_) => true
  }

  /** `type(v).__name__` */
  function TypeName(v: PyValue): string {
    match v
    case PyNone => "NoneType"
    case PyBool(_) => "bool"
    case PyInt(_) => "int"
    case PyStr(_) => "str"
    case PyList(_) => "list"
    case PyDict(_) => "dict"
    case PyObject(t) => t
  }

  /** `d.get(key, default)` */
  function Get(d: map<string, PyValue>, key: string, default: PyValue): PyValue {
    if key in d then d[key] else default
  }

  /** `str(v)` where `show` stands for Python's string conversion of non-strings. */
  function Str(v: PyValue, show: PyValue -> string): string {
    if v.PyStr? then v.s else show(v)
  }

  function DigitChar(d: nat): char
    requires d < 10
  {
    "0123456789"[d]
  }

  /** The number a string of decimal digits denotes. */
  function DecimalValue(s: string): nat
    requires forall k :: 0 <= k < |s| ==> '0' <= s[k] <= '9'
  {
    if |s| == 0 then 0
    else 10 * DecimalValue(s[..|s| - 1]) + (s[|s| - 1] as int - '0' as int)
  }

  /** `str(n)` for a natural number: its decimal digits, without leading zero. */
  function NatToString(n: nat): (s: string)
    ensures |s| > 0
    ensures forall k :: 0 <= k < |s| ==> '0' <= s[k] <= '9'
    ensures DecimalValue(s) == n
    ensures s[0] == '0' ==> n == 0
  {
    if n < 10 then [DigitChar(n)]
    else
      var prefix := NatToString(n / 10);
      var s := prefix + [DigitChar(n % 10)];
      assert s[..|s| - 1] == prefix;
      s
  }
}
