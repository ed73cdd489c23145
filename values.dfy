/** The dynamically typed values that flow through a migration (document
    fields, JSON exports), and the Python built-ins the transformer applies to
    them: truthiness, `str()`, `int()` and `float()`. */
module Values {
  import opened Wrappers

  type Byte = b: int | 0 <= b < 256

  /** A Python value as produced by a JSON decoder or the search client.
      Floats are modelled as exact reals. */
  datatype Value =
    | VNull
    | VBool(b: bool)
    | VInt(i: int)
    | VFloat(r: real)
    | VStr(s: string)
    | VBytes(bytes: seq<Byte>)
    | VList(items: seq<Value>)
    | VDict(entries: seq<(string, Value)>)

  /** The primitives of the Python runtime that the model does not open up:
      they are taken as given, total functions that may fail. */
  datatype Builtins = Builtins(
    parseInt: string -> Result<int, string>,         // int(text)
    parseFloat: string -> Result<real, string>,      // float(text)
    floatRepr: real -> string,                       // str(x) for a float x
    containerRepr: Value -> string,                  // str(v) for bytes, lists and dicts
    jsonLoads: string -> Result<Value, string>,      // json.loads(text)
    packHalf: real -> Result<(Byte, Byte), string>)  // struct.pack("<e", x)

  /** Python's `bool(v)`. */
  predicate Truthy(v: Value) {
    match v
    case VNull => false
    case VBool(b) => b
    case VInt(i) => i != 0
    case VFloat(r) => r != 0.0
    case VStr(s) => s != ""
    case VBytes(bs) => bs != []
    case VList(xs) => xs != []
    case VDict(es) => es != []
  }

  function DigitChar(d: int): (c: char)
    requires 0 <= d < 10
    ensures '0' <= c <= '9'
  {
    ['0', '1', '2', '3', '4', '5', '6', '7', '8', '9'][d]
  }

  function NatText(n: nat): (s: string)
    ensures |s| >= 1
    ensures forall i :: 0 <= i < |s| ==> '0' <= s[i] <= '9'
    decreases n
  {
    if n < 10 then [DigitChar(n)] else NatText(n / 10) + [DigitChar(n % 10)]
  }

  /** `str(n)` for an integer `n`. */
  function IntText(n: int): (s: string)
    ensures s != []
    ensures n < 0 <==> s[0] == '-'
  {
    if n < 0 then "-" + NatText(-n) else NatText(n)
  }

  /** The bytes of a `bytes` object read as text (only ever parsed, never shown). */
  function BytesText(bs: seq<Byte>): (t: string)
    ensures |t| == |bs|
  {
    seq(|bs|, i requires 0 <= i < |bs| => bs[i] as char)
  }

  /** `str(v)`. */
  function Str(py: Builtins, v: Value): string {
    match v
    case VNull => "None"
    case VBool(b) => if b then "True" else "False"
    case VInt(i) => IntText(i)
    case VFloat(r) => py.floatRepr(r)
    case VStr(s) => s
    case _ => py.containerRepr(v)
  }

  /** `int(x)` for a float `x`: truncation toward zero. */
  function Trunc(r: real): (n: int)
    ensures r >= 0.0 ==> n as real <= r < n as real + 1.0
    ensures r < 0.0 ==> n as real - 1.0 < r <= n as real
  {
    if r >= 0.0 then r.Floor else -((-r).Floor)
  }

  const IntTypeError := "TypeError: int() argument must be a string, a bytes-like object or a real number"
  const FloatTypeError := "TypeError: float() argument must be a string or a real number"

  /** `int(v)`; containers and None raise TypeError. */
  function IntOf(py: Builtins, v: Value): Result<int, string> {
    match v
    case VBool(b) => Ok(if b then 1 else 0)
    case VInt(i) => Ok(i)
    case VFloat(r) => Ok(Trunc(r))
    case VStr(s) => py.parseInt(s)
    case VBytes(bs) => py.parseInt(BytesText(bs))
    case _ => Err(IntTypeError)
  }

  /** `float(v)`; containers and None raise TypeError. */
  function FloatOf(py: Builtins, v: Value): Result<real, string> {
    match v
    case VBool(b) => Ok(if b then 1.0 else 0.0)
    case VInt(i) => Ok(i as real)
    case VFloat(r) => Ok(r)
    case VStr(s) => py.parseFloat(s)
    case VBytes(bs) => py.parseFloat(BytesText(bs))
    case _ => Err(FloatTypeError)
  }

  /** Reads every item in order, as a list comprehension does: the first item
      that cannot be read fails the whole list. */
  function ReadAll<A>(xs: seq<Value>, read: Value -> Result<A, string>): (r: Result<seq<A>, string>)
    ensures r.Ok? <==> forall i :: 0 <= i < |xs| ==> read(xs[i]).Ok?
    ensures r.Ok? ==> |r.value| == |xs| && forall i :: 0 <= i < |xs| ==> read(xs[i]) == Ok(r.value[i])
  {
    if xs == [] then Ok([])
    else
      match ReadAll(xs[..|xs| - 1], read)
      case Err(e) => Err(e)
      case Ok(init) =>
        match read(xs[|xs| - 1])
        case Err(e) => Err(e)
        case Ok(last) => Ok(init + [last])
  }
}
