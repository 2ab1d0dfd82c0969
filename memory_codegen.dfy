/** The dtype table and the checks on a declaration's `@init` value (src/codegen/memory.rs). */
module MemoryCodegen {
  import opened Results
  import opened Tokens
  import opened Ast

  /** The element types of the runtime, in the order the table lists them. */
  datatype DType =
    | I8 | I16 | F32 | F64 | U8 | U16 | I32 | I64 | U32 | U64 | Bool | Bitset
    | F16 | BF16 | F8 | I4 | I2 | I1 | U4 | U2 | U1 | T2 | T1

  function DTypeName(t: DType): string {
    match t
    case I8 => "i8"
    case I16 => "i16"
    case F32 => "f32"
    case F64 => "f64"
    case U8 => "u8"
    case U16 => "u16"
    case I32 => "i32"
    case I64 => "i64"
    case U32 => "u32"
    case U64 => "u64"
    case Bool => "bool"
    case Bitset => "bitset"
    case F16 => "f16"
    case BF16 => "bf16"
    case F8 => "f8"
    case I4 => "i4"
    case I2 => "i2"
    case I1 => "i1"
    case U4 => "u4"
    case U2 => "u2"
    case U1 => "u1"
    case T2 => "t2"
    case T1 => "t1"
  }

  /** `match_dtype`: the dtype a name denotes. */
  function DTypeOf(name: string): (r: Result<DType>)
    ensures r.Ok? ==> DTypeName(r.value) == name
    ensures r.Err? ==> r.msg == "unsupported dtype"
  {
    if name == DTypeName(I8) then Ok(I8)
    else if name == DTypeName(I16) then Ok(I16)
    else if name == DTypeName(F32) then Ok(F32)
    else if name == DTypeName(F64) then Ok(F64)
    else if name == DTypeName(U8) then Ok(U8)
    else if name == DTypeName(U16) then Ok(U16)
    else if name == DTypeName(I32) then Ok(I32)
    else if name == DTypeName(I64) then Ok(I64)
    else if name == DTypeName(U32) then Ok(U32)
    else if name == DTypeName(U64) then Ok(U64)
    else if name == DTypeName(Bool) then Ok(Bool)
    else if name == DTypeName(Bitset) then Ok(Bitset)
    else if name == DTypeName(F16) then Ok(F16)
    else if name == DTypeName(BF16) then Ok(BF16)
    else if name == DTypeName(F8) then Ok(F8)
    else if name == DTypeName(I4) then Ok(I4)
    else if name == DTypeName(I2) then Ok(I2)
    else if name == DTypeName(I1) then Ok(I1)
    else if name == DTypeName(U4) then Ok(U4)
    else if name == DTypeName(U2) then Ok(U2)
    else if name == DTypeName(U1) then Ok(U1)
    else if name == DTypeName(T2) then Ok(T2)
    else if name == DTypeName(T1) then Ok(T1)
    else Err("unsupported dtype")
  }

  predicate IsFloat(t: DType) {
    t.F16? || t.BF16? || t.F8? || t.F32? || t.F64?
  }

  // ---- integer init values ----

  const I128Max: int := 0x7fff_ffff_ffff_ffff_ffff_ffff_ffff_ffff
  const I128Min: int := -0x8000_0000_0000_0000_0000_0000_0000_0000

  /** The values an integer init may take for a dtype that accepts one. */
  predicate IntAccepted(t: DType, v: int)
    requires !IsFloat(t)
  {
    match t
    case I8 => -0x80 <= v <= 0x7f
    case I16 => -0x8000 <= v <= 0x7fff
    case I32 => -0x8000_0000 <= v <= 0x7fff_ffff
    case I64 => -0x8000_0000_0000_0000 <= v <= 0x7fff_ffff_ffff_ffff
    case U8 => 0 <= v <= 0xff
    case U16 => 0 <= v <= 0xffff
    case U32 => 0 <= v <= 0xffff_ffff
    case U64 => 0 <= v <= 0xffff_ffff_ffff_ffff
    case Bool => v == 0 || v == 1
    case Bitset => 0 <= v <= 0xff
    case I4 => -8 <= v <= 7
    case I2 => -2 <= v <= 1
    case I1 => -1 <= v <= 0
    case U4 => 0 <= v <= 15
    case U2 => 0 <= v <= 3
    case U1 => 0 <= v <= 1
    case T2 => -1 <= v <= 1
    case T1 => v == -1 || v == 1
  }

  /** The error for an integer init outside the dtype's values. */
  function RangeMessage(t: DType): string
    requires !IsFloat(t)
  {
    match t
    case I8 => "i8 init out of range"
    case I16 => "i16 init out of range"
    case I32 => "i32 init out of range"
    case I64 => "i64 init out of range"
    case U8 => "u8 init out of range"
    case U16 => "u16 init out of range"
    case U32 => "u32 init out of range"
    case U64 => "u64 init out of range"
    case Bool => "bool init must be 0 or 1"
    case Bitset => "bitset init out of range"
    case I4 => "i4 init out of range"
    case I2 => "i2 init out of range"
    case I1 => "i1 init out of range"
    case U4 => "u4 init out of range"
    case U2 => "u2 init out of range"
    case U1 => "u1 init out of range"
    case T2 => "t2 init out of range"
    case T1 => "t1 init must be -1 or 1"
  }

  /** The scalar a generated `Some(ScalarValue::...)` holds. A float keeps its literal and sign;
      an integer keeps its exact value, which the range check makes representable. */
  datatype Scalar =
    | FloatScalar(ftype: DType, lit: LitFloat, negative: bool)
    | IntScalar(itype: DType, value: int)
    | BoolScalar(b: bool)

  /** The literal as an `i128`, negated when the init has a sign. */
  function InitInt(lit: LitInt, negative: bool): (r: Result<int>)
    ensures r.Ok? <==> I128Min <= lit.Value() <= I128Max && !(negative && lit.Value() == I128Min)
    ensures r.Ok? ==> r.value == (if negative then -lit.Value() else lit.Value())
    ensures r.Ok? ==> I128Min <= r.value <= I128Max
  {
    var parsed :- ToSigned(lit, I128Min, I128Max);
    if negative then Negate(parsed, I128Min, I128Max) else Ok(parsed)
  }

  /** An integer init checked against the dtype named `dtype`. */
  function IntScalarOf(dtype: string, v: int): (r: Result<Scalar>)
    ensures r.Ok? <==> DTypeOf(dtype).Ok? && !IsFloat(DTypeOf(dtype).value) && IntAccepted(DTypeOf(dtype).value, v)
    ensures r.Ok? ==> r.value == (if dtype == "bool" then BoolScalar(v == 1) else IntScalar(DTypeOf(dtype).value, v))
    ensures DTypeOf(dtype).Ok? && !IsFloat(DTypeOf(dtype).value) && r.Err? ==> r.msg == RangeMessage(DTypeOf(dtype).value)
    ensures (DTypeOf(dtype).Err? || IsFloat(DTypeOf(dtype).value)) ==>
              r == Err("integer init requires integer/bool/bitset dtype")
  {
    match DTypeOf(dtype)
    case Err(_) => Err("integer init requires integer/bool/bitset dtype")
    case Ok(t) =>
      if IsFloat(t) then Err("integer init requires integer/bool/bitset dtype")
      else if !IntAccepted(t, v) then Err(RangeMessage(t))
      else if t == Bool then Ok(BoolScalar(v != 0))
      else Ok(IntScalar(t, v))
  }

  /** `init_expr`: the initial value a declaration's `@init` denotes for its dtype. */
  function InitExpr(init: Option<InitValue>, dtype: string): (r: Result<Option<Scalar>>)
    ensures init.None? ==> r == Ok(None)
    ensures r.Ok? && init.Some? ==> r.value.Some?
    ensures init.Some? && init.value.FloatInit? ==>
              (r.Ok? <==> DTypeOf(dtype).Ok? && IsFloat(DTypeOf(dtype).value))
              && (r.Ok? ==> r.value == Some(FloatScalar(DTypeOf(dtype).value, init.value.flit, init.value.negative)))
              && (r.Err? ==> r.msg == "float init requires f8/bf16/f16/f32/f64 dtype")
    ensures init.Some? && init.value.BoolInit? ==>
              (r.Ok? <==> dtype == "bool") && (r.Ok? ==> r.value == Some(BoolScalar(init.value.b)))
              && (r.Err? ==> r.msg == "bool init requires bool dtype")
    ensures init.Some? && init.value.IntInit? ==>
              (r.Ok? <==> InitInt(init.value.lit, init.value.negative).Ok?
                          && IntScalarOf(dtype, InitInt(init.value.lit, init.value.negative).value).Ok?)
  {
    match init
    case None => Ok(None)
    case Some(FloatInit(lit, negative)) =>
      (match DTypeOf(dtype)
       case Ok(t) =>
         if IsFloat(t) then Ok(Some(FloatScalar(t, lit, negative)))
         else Err("float init requires f8/bf16/f16/f32/f64 dtype")
       case Err(_) => Err("float init requires f8/bf16/f16/f32/f64 dtype"))
    case Some(IntInit(lit, negative)) =>
      var v :- InitInt(lit, negative);
      var s :- IntScalarOf(dtype, v);
      Ok(Some(s))
    case Some(BoolInit(b)) =>
      if dtype == "bool" then Ok(Some(BoolScalar(b)))
      else Err("bool init requires bool dtype")
  }

  // ---- properties of the table ----

  /** The dtype whose name has this first character, last character and length. */
  function FromShape(first: char, last: char, len: nat): Option<DType> {
    if first == 'i' then
      if len == 3 then (if last == '6' then Some(I16) else if last == '2' then Some(I32) else if last == '4' then Some(I64) else None)
      else if len == 2 then (if last == '8' then Some(I8) else if last == '4' then Some(I4) else if last == '2' then Some(I2) else if last == '1' then Some(I1) else None)
      else None
    else if first == 'u' then
      if len == 3 then (if last == '6' then Some(U16) else if last == '2' then Some(U32) else if last == '4' then Some(U64) else None)
      else if len == 2 then (if last == '8' then Some(U8) else if last == '4' then Some(U4) else if last == '2' then Some(U2) else if last == '1' then Some(U1) else None)
      else None
    else if first == 'f' then
      if len == 3 then (if last == '2' then Some(F32) else if last == '4' then Some(F64) else if last == '6' then Some(F16) else None)
      else if len == 2 && last == '8' then Some(F8)
      else None
    else if first == 'b' then
      if len == 4 && last == 'l' then Some(Bool)
      else if len == 6 && last == 't' then Some(Bitset)
      else if len == 4 && last == '6' then Some(BF16)
      else None
    else if first == 't' && len == 2 then
      if last == '2' then Some(T2) else if last == '1' then Some(T1) else None
    else None
  }

  /** A name's first character, last character and length already tell the dtype. */
  lemma NameShape(t: DType)
    ensures |DTypeName(t)| >= 2
    ensures FromShape(DTypeName(t)[0], DTypeName(t)[|DTypeName(t)| - 1], |DTypeName(t)|) == Some(t)
  {
  }

  /** No two dtypes share a name. */
  lemma DTypeNameInjective(a: DType, b: DType)
    requires DTypeName(a) == DTypeName(b)
    ensures a == b
  {
    NameShape(a);
    NameShape(b);
  }

  /** Every dtype is found under its own name. */
  lemma DTypeRoundTrip(t: DType)
    ensures DTypeOf(DTypeName(t)) == Ok(t)
  {
    var r := DTypeOf(DTypeName(t));
    assert r.Ok?;
    DTypeNameInjective(r.value, t);
  }

  /** The table accepts exactly the 23 names. */
  lemma DTypeAccepted(name: string)
    ensures DTypeOf(name).Ok? <==> exists t: DType :: DTypeName(t) == name
  {
    if t: DType :| DTypeName(t) == name {
      DTypeRoundTrip(t);
    }
  }

  /** An integer init into a dtype keeps its exact, signed value. */
  lemma IntInitValue(lit: LitInt, negative: bool, t: DType)
    requires !IsFloat(t) && t != Bool
    requires InitExpr(Some(IntInit(lit, negative)), DTypeName(t)).Ok?
    ensures InitExpr(Some(IntInit(lit, negative)), DTypeName(t))
         == Ok(Some(IntScalar(t, if negative then -lit.Value() else lit.Value())))
  {
    DTypeRoundTrip(t);
  }
}
