/** Values shared by every handler: optional and fallible results, the Python
    exceptions the handlers can raise, and the dynamically typed values that
    `json.loads` and the AWS event dictionaries hand to them. */
module Common {

  datatype Option<+T> = None | Some(value: T) {
    predicate IsFailure() { None? }
    function PropagateFailure<U>(): Option<U> requires None? { None }
    function Extract(): T requires Some? { value }
  }

  datatype Result<+T, +E> = Ok(value: T) | Err(error: E) {
    predicate IsFailure() { Err? }
    function PropagateFailure<U>(): Result<U, E> requires Err? { Err(error) }
    function Extract(): T requires Ok? { value }
  }

  /** The Python exceptions that escape a handler (or that it catches). */
  datatype PyError =
    | TypeError        // an operation applied to a value of the wrong type
    | AttributeError   // `.get` / `.replace` on a value that has no such method
    | ValueError       // a malformed date or time string
    | IndexError       // `[0]` on an empty list or string
    | KeyError         // `[0]` on a dictionary
    | JsonDecodeError  // a body that is not JSON text
    | OverflowError    // an int too large to be converted to a float

  /** A Python value as it arrives from `json.loads` or from the Lambda event.
      JSON integers become `Int`, other JSON numbers `Float`; `Decimal` only
      appears where a handler builds one itself. */
  datatype Value =
    | Null
    | Bool(b: bool)
    | Int(i: int)
    | Float(f: real)
    | Decimal(d: real)
    | Str(s: string)
    | List(items: seq<Value>)
    | Dict(fields: map<string, Value>)

  const EmptyDict: Value := Dict(map[])

  /** Python truthiness: None, False, zero and empty containers are false. */
  predicate Truthy(v: Value) {
    match v
    case Null => false
    case Bool(b) => b
    case Int(i) => i != 0
    case Float(f) => f != 0.0
    case Decimal(d) => d != 0.0
    case Str(s) => s != ""
    case List(items) => items != []
    case Dict(fields) => fields != map[]
  }

  /** `d.get(key)`: the stored value, or None when the key is missing. */
  function Lookup(d: map<string, Value>, key: string): (r: Value)
    ensures key in d ==> r == d[key]
    ensures key !in d ==> r == Null
  {
    if key in d then d[key] else Null
  }

  /** `d.get(key, default)`: the default is used only for a missing key,
      not for a key that is present with value None. */
  function LookupOr(d: map<string, Value>, key: string, default: Value): (r: Value)
    ensures key in d ==> r == d[key]
    ensures key !in d ==> r == default
  {
    if key in d then d[key] else default
  }

  /** `a or b`: the first operand when it is truthy, otherwise the second. */
  function Or(a: Value, b: Value): (r: Value)
    ensures Truthy(a) ==> r == a
    ensures !Truthy(a) ==> r == b
  {
    if Truthy(a) then a else b
  }

  /** 2 to the power n. */
  function Pow2(n: nat): (r: nat)
    ensures r >= 1
  {
    if n == 0 then 1 else 2 * Pow2(n - 1)
  }

  /** The least magnitude of an int that Python cannot convert to a float:
      the halfway point between the largest finite double, 2^1024 - 2^971,
      and 2^1024, which rounds up (to even) and overflows. */
  const FloatIntLimit: int := Pow2(1024) - Pow2(970)

  /** The operand a float can be multiplied by: an int a float can hold, a
      bool or a float. An int of magnitude FloatIntLimit or more raises
      OverflowError; a Decimal raises TypeError there, as every non-number does. */
  function FloatOperand(v: Value): (r: Result<real, PyError>)
    ensures r.Ok? <==> (v.Int? && -FloatIntLimit < v.i < FloatIntLimit) || v.Float? || v.Bool?
    ensures r.Ok? ==> AsNumber(v) == Some(r.value)
    ensures r.Err? ==> r.error == (if v.Int? then OverflowError else TypeError)
  {
    match v
    case Int(i) => if -FloatIntLimit < i < FloatIntLimit then Ok(i as real) else Err(OverflowError)
    case Float(f) => Ok(f)
    case Bool(b) => Ok(if b then 1.0 else 0.0)
    case _ => Err(TypeError)
  }

  /** Python's numeric view of a value for `<`: bool is an int, and a
      Decimal compares with an int. */
  function AsNumber(v: Value): (r: Option<real>)
    ensures r.Some? <==> v.Int? || v.Float? || v.Decimal? || v.Bool?
  {
    match v
    case Int(i) => Some(i as real)
    case Float(f) => Some(f)
    case Decimal(d) => Some(d)
    case Bool(b) => Some(if b then 1.0 else 0.0)
    case _ => None
  }
}
