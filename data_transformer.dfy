/** The data transformer: turns a search document into a Milvus row by
    coercing each mapped field's value to its mapped type, filling defaults for
    missing values and dropping documents without a key. */
module DataTransformation {
  import opened Wrappers
  import opened PyDict
  import opened Values
  import opened Counting
  import opened TypeMappings
  import opened SchemaModel

  type Document = Dict<string, Value>
  type Row = Dict<string, Value>

  // ---------------------------------------------------------------------
  // The field map
  // ---------------------------------------------------------------------

  /** A conversion the transformer keeps: not skipped and with a target field. */
  predicate Mapped(fc: FieldConversion) {
    !fc.skipped && fc.milvusField.Some?
  }

  /** The field map after the constructor has seen the first `n` conversions:
      each kept conversion is stored under its source name, a later one
      replacing an earlier one in place. */
  function FieldMapUpTo(fcs: seq<FieldConversion>, n: nat): Dict<string, FieldConversion>
    requires n <= |fcs|
  {
    if n == 0 then []
    else
      var m := FieldMapUpTo(fcs, n - 1);
      if Mapped(fcs[n - 1]) then Set(m, fcs[n - 1].azureName, fcs[n - 1]) else m
  }

  /** The key field after the first `n` conversions: the source name of the
      last kept primary-key conversion. */
  function KeyFieldUpTo(fcs: seq<FieldConversion>, n: nat): Option<string>
    requires n <= |fcs|
  {
    if n == 0 then None
    else if Mapped(fcs[n - 1]) && fcs[n - 1].isPrimaryKey then Some(fcs[n - 1].azureName)
    else KeyFieldUpTo(fcs, n - 1)
  }

  function FieldMapOf(fcs: seq<FieldConversion>): Dict<string, FieldConversion> {
    FieldMapUpTo(fcs, |fcs|)
  }

  function KeyFieldOf(fcs: seq<FieldConversion>): Option<string> {
    KeyFieldUpTo(fcs, |fcs|)
  }

  /** Every entry of a field map is a kept conversion stored under its own source name. */
  predicate WellFormedMap(m: Dict<string, FieldConversion>) {
    && UniqueKeys(m)
    && forall i :: 0 <= i < |m| ==> Mapped(m[i].1) && m[i].0 == m[i].1.azureName
  }

  /** The field map is well formed and holds exactly the source names of the
      kept conversions. */
  lemma {:induction false} FieldMapShape(fcs: seq<FieldConversion>, n: nat)
    requires n <= |fcs|
    ensures WellFormedMap(FieldMapUpTo(fcs, n))
    ensures forall name :: name in Keys(FieldMapUpTo(fcs, n)) <==>
      exists i :: 0 <= i < n && Mapped(fcs[i]) && fcs[i].azureName == name
  {
    if n > 0 {
      FieldMapShape(fcs, n - 1);
      var m := FieldMapUpTo(fcs, n - 1);
      var fc := fcs[n - 1];
      if Mapped(fc) {
        SetUnique(m, fc.azureName, fc);
        var m' := Set(m, fc.azureName, fc);
        forall i | 0 <= i < |m'|
          ensures Mapped(m'[i].1) && m'[i].0 == m'[i].1.azureName
        {
          if i < |m| && m'[i] != m[i] {
            assert Keys(m)[i] == fc.azureName;
          }
        }
      }
    }
  }

  /** The conversion stored under a name is the last kept one with that name. */
  lemma {:induction false} FieldMapLastWins(fcs: seq<FieldConversion>, n: nat, i: nat)
    requires i < n <= |fcs|
    requires Mapped(fcs[i])
    requires forall j :: i < j < n ==> !(Mapped(fcs[j]) && fcs[j].azureName == fcs[i].azureName)
    ensures Get(FieldMapUpTo(fcs, n), fcs[i].azureName) == Some(fcs[i])
  {
    var m := FieldMapUpTo(fcs, n - 1);
    var fc := fcs[n - 1];
    if Mapped(fc) {
      SetGet(m, fc.azureName, fc, fcs[i].azureName);
    }
    if i < n - 1 {
      FieldMapLastWins(fcs, n - 1, i);
    }
  }

  /** There is a key field exactly when some kept conversion is a primary
      key, and it names one. */
  lemma {:induction false} KeyFieldShape(fcs: seq<FieldConversion>, n: nat)
    requires n <= |fcs|
    ensures KeyFieldUpTo(fcs, n).Some? <==> exists i :: 0 <= i < n && Mapped(fcs[i]) && fcs[i].isPrimaryKey
    ensures KeyFieldUpTo(fcs, n).Some? ==>
      exists i :: 0 <= i < n && Mapped(fcs[i]) && fcs[i].isPrimaryKey && fcs[i].azureName == KeyFieldUpTo(fcs, n).value
  {
    if n > 0 {
      KeyFieldShape(fcs, n - 1);
    }
  }

  /** The key field is the source name of the last kept primary key. */
  lemma {:induction false} KeyFieldIsLast(fcs: seq<FieldConversion>, n: nat, i: nat)
    requires i < n <= |fcs|
    requires Mapped(fcs[i]) && fcs[i].isPrimaryKey
    requires forall j :: i < j < n ==> !(Mapped(fcs[j]) && fcs[j].isPrimaryKey)
    ensures KeyFieldUpTo(fcs, n) == Some(fcs[i].azureName)
  {
    if i < n - 1 {
      KeyFieldIsLast(fcs, n - 1, i);
    }
  }

  // ---------------------------------------------------------------------
  // Values
  // ---------------------------------------------------------------------

  const DefaultVarcharMaxLength := 65535

  /** `_default_value`: the value a missing field takes; vectors have none
      and are left out of the row. */
  function DefaultValue(dtype: DataType): (r: Option<Value>)
    ensures r.None? <==> dtype in {FloatVector, Float16Vector, BinaryVector}
    ensures dtype == Varchar ==> r == Some(VStr(""))
    ensures dtype in {Int8, Int16, Int32, Int64} ==> r == Some(VInt(0))
    ensures dtype in {Float, Double} ==> r == Some(VFloat(0.0))
    ensures dtype == Bool ==> r == Some(VBool(false))
    ensures dtype == Json ==> r == Some(VDict([]))
    ensures dtype == Array ==> r == Some(VList([]))
  {
    match dtype
    case Varchar => Some(VStr(""))
    case Int32 => Some(VInt(0))
    case Int64 => Some(VInt(0))
    case Int16 => Some(VInt(0))
    case Int8 => Some(VInt(0))
    case Float => Some(VFloat(0.0))
    case Double => Some(VFloat(0.0))
    case Bool => Some(VBool(false))
    case Json => Some(VDict([]))
    case Array => Some(VList([]))
    case _ => None
  }

  /** `s[:n]`: Python's prefix slice, which counts a negative `n` from the end. */
  function PrefixSlice(s: string, n: int): (t: string)
    ensures n >= 0 ==> |t| == if n < |s| then n else |s|
    ensures n < 0 ==> |t| == if |s| + n > 0 then |s| + n else 0
    ensures t <= s
  {
    if n >= |s| then s
    else if n >= 0 then s[..n]
    else if |s| + n > 0 then s[..|s| + n]
    else []
  }

  function IntValue(py: Builtins, v: Value): Result<Value, string> {
    match IntOf(py, v)
    case Ok(i) => Ok(VInt(i))
    case Err(e) => Err(e)
  }

  function FloatValue(py: Builtins, v: Value): Result<Value, string> {
    match FloatOf(py, v)
    case Ok(r) => Ok(VFloat(r))
    case Err(e) => Err(e)
  }

  function StrValue(py: Builtins, v: Value): Result<Value, string> {
    Ok(VStr(Str(py, v)))
  }

  const ByteRangeError := "ValueError: bytes must be in range(0, 256)"
  const ByteTypeError := "TypeError: not an integer"

  /** One element of `bytes(list)`: an integer in 0..255 (a bool counts as one). */
  function ByteOf(v: Value): (r: Result<Byte, string>)
    ensures v.VInt? ==> (r.Ok? <==> 0 <= v.i < 256)
    ensures r.Ok? && v.VInt? ==> r.value == v.i
  {
    match v
    case VBool(b) => var x: Byte := if b then 1 else 0; Ok(x)
    case VInt(i) => if 0 <= i < 256 then var x: Byte := i; Ok(x) else Err(ByteRangeError)
    case _ => Err(ByteTypeError)
  }

  /** The half-precision encoding of one element: `struct.pack("<e", float(v))`. */
  function HalfOf(py: Builtins, v: Value): Result<(Byte, Byte), string> {
    match FloatOf(py, v)
    case Ok(r) => py.packHalf(r)
    case Err(e) => Err(e)
  }

  /** The bytes of a sequence of two-byte encodings, in order. */
  function Concat(ps: seq<(Byte, Byte)>): (bs: seq<Byte>)
    ensures |bs| == 2 * |ps|
    ensures forall i :: 0 <= i < |ps| ==> bs[2 * i] == ps[i].0 && bs[2 * i + 1] == ps[i].1
  {
    if ps == [] then []
    else [ps[0].0, ps[0].1] + Concat(ps[1..])
  }

  const MissingTargetError := "AttributeError: 'NoneType' object has no attribute 'params'"

  /** VARCHAR: text is cut to the target's `max_length` (65535 when it has
      none); anything else becomes its `str()`. */
  function TextValue(py: Builtins, v: Value, fc: FieldConversion): Result<Value, string> {
    if !v.VStr? then StrValue(py, v)
    else if fc.milvusField.None? then Err(MissingTargetError)
    else Ok(VStr(PrefixSlice(v.s, fc.milvusField.value.maxLength.GetOr(DefaultVarcharMaxLength))))
  }

  /** The integer types: `int(value) if value is not None else 0`. */
  function IntegerValue(py: Builtins, v: Value): Result<Value, string> {
    if v == VNull then Ok(VInt(0)) else IntValue(py, v)
  }

  /** FLOAT and DOUBLE: `float(value) if value is not None else 0.0`. */
  function RealValue(py: Builtins, v: Value): Result<Value, string> {
    if v == VNull then Ok(VFloat(0.0)) else FloatValue(py, v)
  }

  /** JSON: containers pass through, text is parsed, anything else is wrapped. */
  function JsonValue(py: Builtins, v: Value): Result<Value, string> {
    if v.VDict? || v.VList? then Ok(v)
    else if v.VStr? then py.jsonLoads(v.s)
    else Ok(VDict([("value", v)]))
  }

  /** How an ARRAY element is coerced, by element type. */
  function ElementReader(py: Builtins, elementType: Option<DataType>): Value -> Result<Value, string> {
    if elementType == Some(Varchar) then (x: Value) => StrValue(py, x)
    else if elementType == Some(Int32) || elementType == Some(Int64) then (x: Value) => IntValue(py, x)
    else if elementType == Some(Double) then (x: Value) => FloatValue(py, x)
    else (x: Value) => Ok(x)
  }

  /** ARRAY: a list is coerced element by element; a single value becomes a
      one-element list and None an empty one. */
  function ArrayValue(py: Builtins, v: Value, elementType: Option<DataType>): Result<Value, string> {
    if v.VList? then
      match ReadAll(v.items, ElementReader(py, elementType))
      case Ok(ys) => Ok(VList(ys))
      case Err(e) => Err(e)
    else if v == VNull then Ok(VList([]))
    else Ok(VList([v]))
  }

  /** `_coerce_float_vector`. */
  function FloatVectorValue(py: Builtins, v: Value): Result<Value, string> {
    if v.VList? then
      match ReadAll(v.items, (x: Value) => FloatValue(py, x))
      case Ok(ys) => Ok(VList(ys))
      case Err(e) => Err(e)
    else if v.VBytes? then Ok(VList(seq(|v.bytes|, i requires 0 <= i < |v.bytes| => VFloat(v.bytes[i] as real))))
    else Ok(v)
  }

  /** `_coerce_float16_vector`: a list is packed element by element; bytes
      and anything else pass through. */
  function HalfVectorValue(py: Builtins, v: Value): Result<Value, string> {
    if v.VList? then
      match ReadAll(v.items, (x: Value) => HalfOf(py, x))
      case Ok(ps) => Ok(VBytes(Concat(ps)))
      case Err(e) => Err(e)
    else Ok(v)
  }

  /** `_coerce_binary_vector`: `bytes(list)`; bytes and anything else pass through. */
  function BinaryVectorValue(v: Value): Result<Value, string> {
    if v.VList? then
      match ReadAll(v.items, ByteOf)
      case Ok(bs) => Ok(VBytes(bs))
      case Err(e) => Err(e)
    else Ok(v)
  }

  /** `_coerce_value`: converts a present value by the type the field was
      mapped to (not by its declared type). */
  function CoerceValue(py: Builtins, v: Value, dtype: DataType, fc: FieldConversion): Result<Value, string> {
    match dtype
    case Varchar => TextValue(py, v, fc)
    case Int32 => IntegerValue(py, v)
    case Int64 => IntegerValue(py, v)
    case Int16 => IntegerValue(py, v)
    case Int8 => IntegerValue(py, v)
    case Float => RealValue(py, v)
    case Double => RealValue(py, v)
    case Bool => Ok(VBool(Truthy(v)))
    case Json => JsonValue(py, v)
    case Array => ArrayValue(py, v, fc.mapping.elementType)
    case FloatVector => FloatVectorValue(py, v)
    case Float16Vector => HalfVectorValue(py, v)
    case BinaryVector => BinaryVectorValue(v)
  }

  /** VARCHAR: text is cut to the target's `max_length` (65535 when it has
      none) and anything else becomes its `str()` uncut; it never fails for a
      field with a target. */
  lemma TextCoercion(py: Builtins, v: Value, fc: FieldConversion)
    requires fc.milvusField.Some?
    ensures TextValue(py, v, fc).Ok? && TextValue(py, v, fc).value.VStr?
    ensures var t := TextValue(py, v, fc).value.s;
      && (v.VStr? ==> t <= v.s && |t| == (var n := fc.milvusField.value.maxLength.GetOr(65535);
           if n < 0 then (if |v.s| + n > 0 then |v.s| + n else 0) else if n < |v.s| then n else |v.s|))
      && (!v.VStr? ==> t == Str(py, v))
  {
  }

  /** The integer types: integers pass unchanged, booleans become 0 or 1,
      floats are truncated, containers fail, and a success is an integer. */
  lemma IntegerCoercion(py: Builtins, v: Value)
    ensures IntegerValue(py, v).Ok? ==> IntegerValue(py, v).value.VInt?
    ensures v.VInt? ==> IntegerValue(py, v) == Ok(v)
    ensures v.VBool? ==> IntegerValue(py, v) == Ok(VInt(if v.b then 1 else 0))
    ensures v.VFloat? ==> IntegerValue(py, v) == Ok(VInt(Trunc(v.r)))
    ensures v.VList? || v.VDict? ==> IntegerValue(py, v).Err?
  {
  }

  /** FLOAT and DOUBLE: integers widen exactly, floats pass unchanged,
      containers fail, and a success is a float. */
  lemma RealCoercion(py: Builtins, v: Value)
    ensures RealValue(py, v).Ok? ==> RealValue(py, v).value.VFloat?
    ensures v.VInt? ==> RealValue(py, v) == Ok(VFloat(v.i as real))
    ensures v.VFloat? ==> RealValue(py, v) == Ok(v)
    ensures v.VList? || v.VDict? ==> RealValue(py, v).Err?
  {
  }

  /** JSON: only parsing text can fail; containers pass through and any other
      value is wrapped as `{"value": v}`. */
  lemma JsonCoercion(py: Builtins, v: Value)
    ensures !v.VStr? ==> JsonValue(py, v).Ok?
    ensures v.VDict? || v.VList? ==> JsonValue(py, v) == Ok(v)
    ensures !v.VStr? && !v.VDict? && !v.VList? ==>
      var w := JsonValue(py, v).value;
      w.VDict? && |w.entries| == 1 && w.entries[0] == ("value", v)
    ensures v.VStr? ==> JsonValue(py, v) == py.jsonLoads(v.s)
  {
  }

  /** ARRAY: a list keeps its length with each element coerced by the element
      type (text, integer, float, or unchanged); a single value becomes a
      one-element list and None an empty one. */
  lemma ArrayCoercion(py: Builtins, v: Value, elementType: Option<DataType>)
    ensures ArrayValue(py, v, elementType).Ok? ==> ArrayValue(py, v, elementType).value.VList?
    ensures v.VList? && ArrayValue(py, v, elementType).Ok? ==> |ArrayValue(py, v, elementType).value.items| == |v.items|
    ensures v.VList? && elementType == Some(Varchar) ==>
      ArrayValue(py, v, elementType) == Ok(VList(seq(|v.items|, i requires 0 <= i < |v.items| => VStr(Str(py, v.items[i])))))
    ensures v.VList? && elementType !in {Some(Varchar), Some(Int32), Some(Int64), Some(Double)} ==>
      ArrayValue(py, v, elementType) == Ok(v)
    ensures !v.VList? && v != VNull ==> ArrayValue(py, v, elementType) == Ok(VList([v]))
    ensures v == VNull ==> ArrayValue(py, v, elementType) == Ok(VList([]))
  {
    if v.VList? {
      var xs := v.items;
      var ys := ReadAll(xs, ElementReader(py, elementType));
      if elementType == Some(Varchar) {
        assert ys.value == seq(|xs|, i requires 0 <= i < |xs| => VStr(Str(py, xs[i])));
      } else if elementType !in {Some(Varchar), Some(Int32), Some(Int64), Some(Double)} {
        assert ys.value == xs;
      }
    }
  }

  /** Float vectors: a list keeps its length and holds floats; bytes become
      their values as floats. */
  lemma FloatVectorCoercion(py: Builtins, v: Value)
    ensures v.VList? && FloatVectorValue(py, v).Ok? ==>
      var w := FloatVectorValue(py, v).value;
      w.VList? && |w.items| == |v.items| && forall i :: 0 <= i < |w.items| ==> w.items[i].VFloat?
    ensures v.VBytes? ==>
      FloatVectorValue(py, v) == Ok(VList(seq(|v.bytes|, i requires 0 <= i < |v.bytes| => VFloat(v.bytes[i] as real))))
  {
    if v.VList? {
      var read := (x: Value) => FloatValue(py, x);
      var f := ReadAll(v.items, read);
      if f.Ok? {
        forall i | 0 <= i < |v.items| ensures f.value[i].VFloat? {
          assert read(v.items[i]) == Ok(f.value[i]);
        }
      }
    }
  }

  /** Float16 vectors: a list packs into two bytes per element; anything else
      passes through. */
  lemma HalfVectorCoercion(py: Builtins, v: Value)
    ensures v.VList? && HalfVectorValue(py, v).Ok? ==>
      var w := HalfVectorValue(py, v).value;
      w.VBytes? && |w.bytes| == 2 * |v.items|
    ensures !v.VList? ==> HalfVectorValue(py, v) == Ok(v)
  {
  }

  /** Binary vectors: a list of integers in 0..255 becomes those bytes, and a
      list holding an integer out of range fails. */
  lemma BinaryVectorCoercion(v: Value)
    ensures v.VList? && (forall i :: 0 <= i < |v.items| ==> v.items[i].VInt? && 0 <= v.items[i].i < 256) ==>
      var w := BinaryVectorValue(v);
      w.Ok? && w.value.VBytes? && |w.value.bytes| == |v.items|
      && forall i :: 0 <= i < |v.items| ==> w.value.bytes[i] == v.items[i].i
    ensures v.VList? && (exists i :: 0 <= i < |v.items| && v.items[i].VInt? && !(0 <= v.items[i].i < 256)) ==>
      BinaryVectorValue(v).Err?
    ensures !v.VList? ==> BinaryVectorValue(v) == Ok(v)
  {
    if v.VList? {
      var b := ReadAll(v.items, ByteOf);
      if b.Ok? {
        forall i | 0 <= i < |v.items| && v.items[i].VInt? ensures b.value[i] == v.items[i].i {
          assert ByteOf(v.items[i]) == Ok(b.value[i]);
        }
      }
    }
  }

  // ---------------------------------------------------------------------
  // Documents and batches
  // ---------------------------------------------------------------------

  predicate AllMapped(m: Dict<string, FieldConversion>) {
    forall i :: 0 <= i < |m| ==> Mapped(m[i].1)
  }

  function MilvusName(fc: FieldConversion): string
    requires fc.milvusField.Some?
  {
    fc.milvusField.value.name
  }

  /** How a present value is coerced; the walk over a document does not
      depend on the particular coercion. */
  type Coercer = (Value, DataType, FieldConversion) -> Result<Value, string>

  /** `_coerce_value` with the runtime's built-ins. */
  function Coercion(py: Builtins): Coercer {
    (v: Value, dtype: DataType, fc: FieldConversion) => CoerceValue(py, v, dtype, fc)
  }

  /** `doc.get(name) is None`: the field is absent or null. */
  predicate Missing(doc: Document, name: string) {
    Get(doc, name).GetOr(VNull) == VNull
  }

  /** What a mapped field contributes to the row: its coerced value, the
      default of its mapped type when missing, or nothing (a missing vector). */
  function FieldValue(coerce: Coercer, name: string, fc: FieldConversion, doc: Document): Result<Option<Value>, string> {
    if Missing(doc, name) then Ok(DefaultValue(fc.mapping.milvusType))
    else
      match coerce(Get(doc, name).value, fc.mapping.milvusType, fc)
      case Ok(v) => Ok(Some(v))
      case Err(e) => Err(e)
  }

  /** The row after the first `n` entries of the field map: None once a
      primary key was missing, an error once a coercion failed. */
  function TransformedUpTo(coerce: Coercer, m: Dict<string, FieldConversion>, doc: Document, n: nat): Result<Option<Row>, string>
    requires AllMapped(m) && n <= |m|
  {
    if n == 0 then Ok(Some([]))
    else
      match TransformedUpTo(coerce, m, doc, n - 1)
      case Ok(Some(row)) =>
        var (name, fc) := m[n - 1];
        if Missing(doc, name) && fc.isPrimaryKey then Ok(None)
        else (
          match FieldValue(coerce, name, fc, doc)
          case Ok(Some(v)) => Ok(Some(Set(row, MilvusName(fc), v)))
          case Ok(None) => Ok(Some(row))
          case Err(e) => Err(e))
      case stopped => stopped
  }

  /** `transform_document` over a whole field map. */
  function Transformed(coerce: Coercer, m: Dict<string, FieldConversion>, doc: Document): Result<Option<Row>, string>
    requires AllMapped(m)
  {
    TransformedUpTo(coerce, m, doc, |m|)
  }

  /** Once a document is dropped or has failed, later fields change nothing. */
  lemma {:induction false} TransformStops(coerce: Coercer, m: Dict<string, FieldConversion>, doc: Document, k: nat, n: nat)
    requires AllMapped(m) && k <= n <= |m|
    requires !(TransformedUpTo(coerce, m, doc, k).Ok? && TransformedUpTo(coerce, m, doc, k).value.Some?)
    ensures TransformedUpTo(coerce, m, doc, n) == TransformedUpTo(coerce, m, doc, k)
    decreases n
  {
    if n > k {
      TransformStops(coerce, m, doc, k, n - 1);
    }
  }

  /** An error is the error of some field's coercion. */
  lemma {:induction false} ErrorsComeFromFields(coerce: Coercer, m: Dict<string, FieldConversion>, doc: Document, n: nat)
    requires AllMapped(m) && n <= |m|
    ensures TransformedUpTo(coerce, m, doc, n).Err? ==>
      exists j :: 0 <= j < n && FieldValue(coerce, m[j].0, m[j].1, doc).Err?
  {
    if n > 0 {
      ErrorsComeFromFields(coerce, m, doc, n - 1);
    }
  }

  /** A document whose primary key is missing is never turned into a row: it
      is dropped, unless a field before the key already failed to coerce. */
  lemma MissingKeyDropsDocument(coerce: Coercer, m: Dict<string, FieldConversion>, doc: Document, i: nat)
    requires AllMapped(m) && i < |m|
    requires m[i].1.isPrimaryKey && Missing(doc, m[i].0)
    ensures var r := Transformed(coerce, m, doc);
      r == Ok(None) || (r.Err? && exists j :: 0 <= j < i && FieldValue(coerce, m[j].0, m[j].1, doc).Err?)
  {
    ErrorsComeFromFields(coerce, m, doc, i);
    TransformStops(coerce, m, doc, i + 1, |m|);
  }

  /** A field that is present, or missing but with a default, lands in the row. */
  predicate Contributes(doc: Document, e: (string, FieldConversion)) {
    !Missing(doc, e.0) || DefaultValue(e.1.mapping.milvusType).Some?
  }

  /** The field adds an entry to the row. */
  predicate Adds(coerce: Coercer, e: (string, FieldConversion), doc: Document) {
    FieldValue(coerce, e.0, e.1, doc).Ok? && FieldValue(coerce, e.0, e.1, doc).value.Some?
  }

  /** The row the first `n` fields build when no key is missing and no
      coercion fails. */
  function RowUpTo(coerce: Coercer, m: Dict<string, FieldConversion>, doc: Document, n: nat): Row
    requires AllMapped(m) && n <= |m|
  {
    if n == 0 then []
    else if Adds(coerce, m[n - 1], doc) then
      Set(RowUpTo(coerce, m, doc, n - 1), MilvusName(m[n - 1].1), FieldValue(coerce, m[n - 1].0, m[n - 1].1, doc).value.value)
    else RowUpTo(coerce, m, doc, n - 1)
  }

  /** A row that was built is the happy-path row, and on the way every field
      coerced and added an entry exactly when it contributes. */
  lemma {:induction false} HappyPath(coerce: Coercer, m: Dict<string, FieldConversion>, doc: Document, n: nat)
    requires AllMapped(m) && n <= |m|
    requires TransformedUpTo(coerce, m, doc, n).Ok? && TransformedUpTo(coerce, m, doc, n).value.Some?
    ensures TransformedUpTo(coerce, m, doc, n).value.value == RowUpTo(coerce, m, doc, n)
    ensures forall i :: 0 <= i < n ==>
      FieldValue(coerce, m[i].0, m[i].1, doc).Ok? && (Adds(coerce, m[i], doc) <==> Contributes(doc, m[i]))
  {
    if n > 0 {
      HappyPath(coerce, m, doc, n - 1);
    }
  }

  lemma {:induction false} RowUpToColumns(coerce: Coercer, m: Dict<string, FieldConversion>, doc: Document, n: nat)
    requires AllMapped(m) && n <= |m|
    ensures forall k :: k in Keys(RowUpTo(coerce, m, doc, n)) <==>
      exists i :: 0 <= i < n && Adds(coerce, m[i], doc) && MilvusName(m[i].1) == k
  {
    if n > 0 {
      RowUpToColumns(coerce, m, doc, n - 1);
    }
  }

  lemma {:induction false} RowUpToValue(coerce: Coercer, m: Dict<string, FieldConversion>, doc: Document, n: nat, i: nat)
    requires AllMapped(m) && i < n <= |m|
    requires forall j :: 0 <= j < |m| && j != i ==> MilvusName(m[j].1) != MilvusName(m[i].1)
    ensures Get(RowUpTo(coerce, m, doc, n), MilvusName(m[i].1))
      == if Adds(coerce, m[i], doc) then Some(FieldValue(coerce, m[i].0, m[i].1, doc).value.value) else None
  {
    var prev := RowUpTo(coerce, m, doc, n - 1);
    var name := MilvusName(m[i].1);
    if i < n - 1 {
      RowUpToValue(coerce, m, doc, n - 1, i);
    } else {
      RowUpToColumns(coerce, m, doc, n - 1);
      assert name !in Keys(prev);
    }
    if Adds(coerce, m[n - 1], doc) {
      SetGet(prev, MilvusName(m[n - 1].1), FieldValue(coerce, m[n - 1].0, m[n - 1].1, doc).value.value, name);
    }
  }

  /** The row's columns are exactly the target names of the contributing
      fields; no other key of the document ever appears. */
  lemma RowColumns(coerce: Coercer, m: Dict<string, FieldConversion>, doc: Document, row: Row)
    requires AllMapped(m)
    requires Transformed(coerce, m, doc) == Ok(Some(row))
    ensures forall k :: k in Keys(row) <==> exists i :: 0 <= i < |m| && Contributes(doc, m[i]) && MilvusName(m[i].1) == k
  {
    HappyPath(coerce, m, doc, |m|);
    RowUpToColumns(coerce, m, doc, |m|);
  }

  /** The value under a field's target name is what that field contributes,
      when no other field shares its target name. */
  lemma RowValue(coerce: Coercer, m: Dict<string, FieldConversion>, doc: Document, row: Row, i: nat)
    requires AllMapped(m) && i < |m|
    requires Transformed(coerce, m, doc) == Ok(Some(row))
    requires forall j :: 0 <= j < |m| && j != i ==> MilvusName(m[j].1) != MilvusName(m[i].1)
    ensures FieldValue(coerce, m[i].0, m[i].1, doc).Ok?
    ensures Get(row, MilvusName(m[i].1)) == FieldValue(coerce, m[i].0, m[i].1, doc).value
  {
    HappyPath(coerce, m, doc, |m|);
    RowUpToValue(coerce, m, doc, |m|, i);
  }

  /** `transform_document` turns the document into a row. */
  predicate Kept(coerce: Coercer, m: Dict<string, FieldConversion>, doc: Document) {
    AllMapped(m) && Transformed(coerce, m, doc).Ok? && Transformed(coerce, m, doc).value.Some?
  }

  /** The rows of the first `n` documents, in order; a coercion error in any
      document fails the batch. */
  function BatchUpTo(coerce: Coercer, m: Dict<string, FieldConversion>, docs: seq<Document>, n: nat): Result<seq<Row>, string>
    requires AllMapped(m) && n <= |docs|
  {
    if n == 0 then Ok([])
    else
      match BatchUpTo(coerce, m, docs, n - 1)
      case Err(e) => Err(e)
      case Ok(rows) =>
        match Transformed(coerce, m, docs[n - 1])
        case Err(e) => Err(e)
        case Ok(None) => Ok(rows)
        case Ok(Some(row)) => Ok(rows + [row])
  }

  /** The batch succeeds exactly when every document transforms without an
      error. */
  lemma {:induction false} BatchSucceeds(coerce: Coercer, m: Dict<string, FieldConversion>, docs: seq<Document>, n: nat)
    requires AllMapped(m) && n <= |docs|
    ensures BatchUpTo(coerce, m, docs, n).Ok? <==> forall i :: 0 <= i < n ==> Transformed(coerce, m, docs[i]).Ok?
  {
    if n > 0 {
      BatchSucceeds(coerce, m, docs, n - 1);
    }
  }

  /** A batch that succeeds holds one row per kept document, each the row of
      a document of the batch, and every kept document's row is among them. */
  lemma {:induction false} BatchShape(coerce: Coercer, m: Dict<string, FieldConversion>, docs: seq<Document>, n: nat)
    requires AllMapped(m) && n <= |docs|
    requires BatchUpTo(coerce, m, docs, n).Ok?
    ensures var rows := BatchUpTo(coerce, m, docs, n).value;
      && |rows| == Count(docs[..n], d => Kept(coerce, m, d))
      && (forall j :: 0 <= j < |rows| ==> exists i :: 0 <= i < n && Transformed(coerce, m, docs[i]) == Ok(Some(rows[j])))
      && (forall i :: 0 <= i < n && Kept(coerce, m, docs[i]) ==> Transformed(coerce, m, docs[i]).value.value in rows)
  {
    if n > 0 {
      var prev := BatchUpTo(coerce, m, docs, n - 1);
      assert prev.Ok?;
      BatchShape(coerce, m, docs, n - 1);
      CountSnoc(docs, n - 1, d => Kept(coerce, m, d));
      var rows := BatchUpTo(coerce, m, docs, n).value;
      forall j | 0 <= j < |rows|
        ensures exists i :: 0 <= i < n && Transformed(coerce, m, docs[i]) == Ok(Some(rows[j]))
      {
        if j < |prev.value| {
          assert rows[j] == prev.value[j];
        }
      }
    }
  }

  /** Once a batch has failed, later documents change nothing. */
  lemma {:induction false} BatchStops(coerce: Coercer, m: Dict<string, FieldConversion>, docs: seq<Document>, k: nat, n: nat)
    requires AllMapped(m) && k <= n <= |docs|
    requires BatchUpTo(coerce, m, docs, k).Err?
    ensures BatchUpTo(coerce, m, docs, n) == BatchUpTo(coerce, m, docs, k)
    decreases n
  {
    if n > k {
      BatchStops(coerce, m, docs, k, n - 1);
    }
  }

  /** `DataTransformer`: the field map and key field are fixed at construction. */
  class DataTransformer {
    const fieldMap: Dict<string, FieldConversion>
    const keyField: Option<string>
    /** `_coerce_value` as the runtime's built-ins evaluate it. */
    const coerce: Coercer

    /** Keeps the converted fields that have a target, under their source names. */
    constructor (fcs: seq<FieldConversion>, py: Builtins)
      ensures fieldMap == FieldMapOf(fcs) && keyField == KeyFieldOf(fcs) && coerce == Coercion(py)
      ensures WellFormedMap(fieldMap)
    {
      var m: Dict<string, FieldConversion> := [];
      var key: Option<string> := None;
      for i := 0 to |fcs|
        invariant m == FieldMapUpTo(fcs, i) && key == KeyFieldUpTo(fcs, i)
      {
        var fc := fcs[i];
        if !fc.skipped && fc.milvusField.Some? {
          m := Set(m, fc.azureName, fc);
          if fc.isPrimaryKey {
            key := Some(fc.azureName);
          }
        }
      }
      FieldMapShape(fcs, |fcs|);
      fieldMap, keyField, coerce := m, key, Coercion(py);
    }

    /** `transform_document`: walks the field map in order and stops at the
        first missing key. */
    method TransformDocument(doc: Document) returns (r: Result<Option<Row>, string>)
      requires WellFormedMap(fieldMap)
      ensures r == Transformed(coerce, fieldMap, doc)
    {
      var row: Row := [];
      for i := 0 to |fieldMap|
        invariant TransformedUpTo(coerce, fieldMap, doc, i) == Ok(Some(row))
      {
        var (name, fc) := fieldMap[i];
        var value := Get(doc, name).GetOr(VNull);
        var milvusName := fc.milvusField.value.name;
        var dtype := fc.mapping.milvusType;
        if value == VNull {
          if fc.isPrimaryKey {
            TransformStops(coerce, fieldMap, doc, i + 1, |fieldMap|);
            return Ok(None);
          }
          var d := DefaultValue(dtype);
          if d.None? {
            continue;
          }
          value := d.value;
        } else {
          var c := coerce(value, dtype, fc);
          if c.Err? {
            TransformStops(coerce, fieldMap, doc, i + 1, |fieldMap|);
            return Err(c.error);
          }
          value := c.value;
        }
        row := Set(row, milvusName, value);
      }
      return Ok(Some(row));
    }

    /** `transform_batch`: the rows of the kept documents, in order; a
        coercion error propagates. */
    method TransformBatch(docs: seq<Document>) returns (r: Result<seq<Row>, string>)
      requires WellFormedMap(fieldMap)
      ensures r == BatchUpTo(coerce, fieldMap, docs, |docs|)
    {
      var rows: seq<Row> := [];
      for i := 0 to |docs|
        invariant BatchUpTo(coerce, fieldMap, docs, i) == Ok(rows)
      {
        var t := TransformDocument(docs[i]);
        if t.Err? {
          BatchStops(coerce, fieldMap, docs, i + 1, |docs|);
          return Err(t.error);
        }
        if t.value.Some? {
          rows := rows + [t.value.value];
        }
      }
      return Ok(rows);
    }
  }
}
