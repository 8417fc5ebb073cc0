/** JSON values as the Python code sees them after `json.loads`, the Python
    exceptions the library raises or lets escape, and the small pieces of
    Python semantics (truthiness, `==` between bools and ints, subscripting,
    iteration) that the rest of the model relies on.

    JSON `null` and Python `None` are the same value once decoded, so `JNull`
    stands for both. JSON floats are not modelled: numbers are integers. */
module PyJson {
  import opened PyStrings

  datatype Option<+T> = None | Some(value: T) {
    predicate IsFailure() { None? }
    function PropagateFailure<U>(): Option<U>
      requires None?
    {
      None
    }
    function Extract(): T
      requires Some?
    {
      value
    }
  }

  datatype Json =
    | JNull
    | JBool(b: bool)
    | JInt(i: int)
    | JStr(s: string)
    | JArr(items: seq<Json>)
    | JObj(fields: map<string, Json>)

  /** The exceptions the modelled code raises, or lets escape from the
      collaborators it calls. */
  datatype Error =
    | KeyError(key: string)
    | IndexError
    | TypeError(what: string)
    | ValueError(what: string)
    | AssertionError(what: string)
    | AttributeError(what: string)
    | JsonRpcError(code: Json, message: Json)
    | SessionError(what: string)
    | ShcException(what: string)
    | RegistrationError(what: string)
    | RuntimeError(what: string)
    | RecursionError
    | NotImplemented
    | ClientError(what: string)
    | ImportError(name: string)
    | NameError(name: string)
    | OtherError(what: string)

  /** `RecursionError` and `NotImplementedError` are subclasses of Python's
      `RuntimeError`, so an `except RuntimeError` clause catches them too. */
  predicate IsRuntimeError(e: Error) {
    e.RuntimeError? || e.RecursionError? || e.NotImplemented?
  }

  datatype Result<+T> = Ok(value: T) | Fail(error: Error) {
    predicate IsFailure() { Fail? }
    function PropagateFailure<U>(): Result<U>
      requires Fail?
    {
      Fail(error)
    }
    function Extract(): T
      requires Ok?
    {
      value
    }
  }

  /** A value Python can use as a dict key or look up in a set: lists and
      dicts cannot. */
  predicate Hashable(j: Json) { !j.JArr? && !j.JObj? }

  /** `key in value` for a decoded JSON object. */
  predicate Has(j: Json, key: string) {
    j.JObj? && key in j.fields
  }

  /** `value[key]`: a `TypeError` on anything but an object, a `KeyError` on
      an object that lacks the key. */
  function Field(j: Json, key: string): (r: Result<Json>)
    ensures r.Ok? <==> Has(j, key)
    ensures r.Ok? ==> r.value == j.fields[key]
    ensures !j.JObj? ==> r.Fail? && r.error.TypeError?
    ensures j.JObj? && key !in j.fields ==> r == Fail(KeyError(key))
  {
    if !j.JObj? then Fail(TypeError("not subscriptable by a string"))
    else if key in j.fields then Ok(j.fields[key])
    else Fail(KeyError(key))
  }

  /** `value[key] if key in value else default`, the library's idiom for
      optional fields. */
  function FieldOr(j: Json, key: string, default: Json): (r: Json)
    ensures Has(j, key) ==> r == j.fields[key]
    ensures !Has(j, key) ==> r == default
  {
    if Has(j, key) then j.fields[key] else default
  }

  /** `key in value`: a dict tests its keys, a list its elements and a
      string its substrings; other values are not iterable. */
  function PyIn(key: string, j: Json): (r: Result<bool>)
    ensures j.JObj? ==> r == Ok(key in j.fields)
    ensures j.JStr? ==> r == Ok(Contains(j.s, key))
    ensures r.Ok? <==> j.JObj? || j.JArr? || j.JStr?
  {
    match j
    case JObj(m) => Ok(key in m)
    case JArr(items) => Ok(JStr(key) in items)
    case JStr(s) => Ok(Contains(s, key))
    case _ => Fail(TypeError("argument is not iterable"))
  }

  /** Python truthiness: `None`, `False`, `0`, and empty strings, lists and
      dicts are false; everything else is true. */
  predicate Truthy(j: Json) {
    match j
    case JNull => false
    case JBool(b) => b
    case JInt(i) => i != 0
    case JStr(s) => |s| > 0
    case JArr(a) => |a| > 0
    case JObj(m) => |m| > 0
  }

  /** The integer a value stands for in arithmetic and comparisons: Python's
      `bool` is a subclass of `int`, so `True == 1` and `False == 0`. */
  function PyNumber(j: Json): (r: Option<int>)
    ensures r.Some? <==> j.JInt? || j.JBool?
  {
    match j
    case JInt(i) => Some(i)
    case JBool(b) => Some(if b then 1 else 0)
    case _ => None
  }

  /** Python `==` between two decoded values: structural equality, except
      that a bool and an int compare by number. (Containers holding such
      mixed scalars are compared structurally; see the README.) */
  predicate PyEq(a: Json, b: Json) {
    a == b || (PyNumber(a).Some? && PyNumber(a) == PyNumber(b))
  }

  /** Python `<` between two decoded values: defined on numbers and between
      two strings; anything else is a `TypeError`. */
  function PyLess(a: Json, b: Json): (r: Result<bool>)
    ensures r.Ok? <==> (PyNumber(a).Some? && PyNumber(b).Some?) || (a.JStr? && b.JStr?)
    ensures PyNumber(a).Some? && PyNumber(b).Some? ==> r == Ok(PyNumber(a).value < PyNumber(b).value)
  {
    if PyNumber(a).Some? && PyNumber(b).Some? then Ok(PyNumber(a).value < PyNumber(b).value)
    else if a.JStr? && b.JStr? then Ok(StrLess(a.s, b.s))
    else Fail(TypeError("'<' not supported"))
  }

  /** Lexicographic order of strings by code point, as Python compares `str`. */
  predicate StrLess(x: string, y: string) {
    if |x| == 0 then |y| > 0
    else if |y| == 0 then false
    else if x[0] != y[0] then x[0] < y[0]
    else StrLess(x[1..], y[1..])
  }

  /** The elements a `for` loop over a decoded value visits, for the loops
      that expect a list; other values are reported as a `TypeError`.
      Python would iterate a dict's keys or a string's characters instead:
      a loop that subscripts its elements fails one step later, but a loop
      that only tests them for membership does not (the README lists
      where this matters). */
  function Elements(j: Json): (r: Result<seq<Json>>)
    ensures r.Ok? <==> j.JArr?
    ensures r.Ok? ==> r.value == j.items
  {
    if j.JArr? then Ok(j.items) else Fail(TypeError("not a list"))
  }

  /** `len(value)`. */
  function PyLen(j: Json): (r: Result<nat>)
    ensures j.JArr? ==> r == Ok(|j.items|)
    ensures j.JObj? ==> r == Ok(|j.fields|)
    ensures j.JStr? ==> r == Ok(|j.s|)
    ensures r.Ok? <==> j.JArr? || j.JObj? || j.JStr?
  {
    match j
    case JArr(a) => Ok(|a|)
    case JObj(m) => Ok(|m|)
    case JStr(s) => Ok(|s|)
    case _ => Fail(TypeError("object has no len()"))
  }

  /** `value[0]`: the first element of a list or the first character of a
      string; a dict is looked up under the integer key 0. */
  function Item0(j: Json): (r: Result<Json>)
    ensures j.JArr? && |j.items| > 0 ==> r == Ok(j.items[0])
    ensures r.Ok? ==> (j.JArr? && |j.items| > 0) || (j.JStr? && |j.s| > 0)
  {
    match j
    case JArr(items) => if |items| > 0 then Ok(items[0]) else Fail(IndexError)
    case JStr(s) => if |s| > 0 then Ok(JStr(s[..1])) else Fail(IndexError)
    case JObj(_) => Fail(KeyError("0"))
    case _ => Fail(TypeError("not subscriptable"))
  }

  predicate IsDigit(c: char) { '0' <= c <= '9' }

  function DigitValue(c: char): (d: nat)
    requires IsDigit(c)
    ensures d < 10
  {
    c as int - '0' as int
  }

  /** The value of a non-empty run of decimal digits. */
  function DigitsValue(s: string): nat
    requires forall i | 0 <= i < |s| :: IsDigit(s[i])
    decreases |s|
  {
    if |s| == 0 then 0
    else 10 * DigitsValue(s[..|s| - 1]) + DigitValue(s[|s| - 1])
  }

  /** `int(text)` for a string: an optional sign followed by decimal
      digits; anything else is a `ValueError`. */
  function ParseInt(s: string): (r: Result<int>)
    ensures |s| == 1 && IsDigit(s[0]) ==> r == Ok(DigitValue(s[0]))
  {
    var sign := if |s| > 0 && (s[0] == '-' || s[0] == '+') then 1 else 0;
    var digits := s[sign..];
    if |digits| == 0 || exists i | 0 <= i < |digits| :: !IsDigit(digits[i]) then Fail(ValueError("invalid literal for int()"))
    else if sign == 1 && s[0] == '-' then Ok(-(DigitsValue(digits) as int))
    else
      assert |s| == 1 ==> digits == s && DigitsValue(s) == DigitsValue(s[..0]) * 10 + DigitValue(s[0]);
      Ok(DigitsValue(digits) as int)
  }

  /** `int(value)` for a decoded value: ints are themselves, bools are 0 or
      1, strings are parsed; anything else is a `TypeError`. */
  function PyInt(j: Json): (r: Result<int>)
    ensures PyNumber(j).Some? ==> r == Ok(PyNumber(j).value)
    ensures j.JStr? ==> r == ParseInt(j.s)
    ensures r.Ok? ==> PyNumber(j).Some? || j.JStr?
  {
    match j
    case JInt(i) => Ok(i)
    case JBool(b) => Ok(if b then 1 else 0)
    case JStr(s) => ParseInt(s)
    case _ => Fail(TypeError("int() argument"))
  }

  /** `SomeEnum(value)` for an enumeration whose values are strings: only
      a string naming a member is accepted. */
  function EnumMember(v: Json, members: set<string>): (r: Result<string>)
    ensures r.Ok? <==> v.JStr? && v.s in members
    ensures r.Ok? ==> r.value == v.s
    ensures r.Fail? ==> r.error.ValueError?
  {
    if v.JStr? && v.s in members then Ok(v.s) else Fail(ValueError("is not a valid enumeration member"))
  }
}
