/**
 * Type utilities of xlang (xlang/xl_types.py): resolution of placeholder type
 * names, literal range inference and the assignability relation.
 */
module Types {
  import opened Wrappers
  import opened Ast
  import opened Exceptions

  /** The primitive-name table of get_type_from_string (xl_types.py:34-55).
      This revision has no "char" and no "float" spelling. */
  function PrimitiveByName(name: string): (r: Option<PrimitiveType>)
    ensures r.Some? ==> r.value != CHAR && r.value != FLOAT
  {
    if name == "i64" then Some(I64)
    else if name == "i32" then Some(I32)
    else if name == "i16" then Some(I16)
    else if name == "i8" then Some(I8)
    else if name == "u64" then Some(U64)
    else if name == "u32" then Some(U32)
    else if name == "u16" then Some(U16)
    else if name == "u8" then Some(U8)
    else if name == "f32" then Some(F32)
    else if name == "string" then Some(STRING)
    else if name == "bool" then Some(BOOL)
    else None
  }

  /** get_type_from_string (xl_types.py:33-59): primitive names first, then
      the struct table; anything else is an internal compiler error. This
      revision does not consult the enum table. */
  function GetTypeFromString(g: GlobalScope, name: string): (r: Result<VarType, Error>)
    ensures PrimitiveByName(name).Some? ==> r == Success(Primitive(PrimitiveByName(name).value))
    ensures PrimitiveByName(name).None? && FindStruct(g.structs, name).Some? ==> r == Success(Struct(name))
    ensures r.Failure? <==> PrimitiveByName(name).None? && FindStruct(g.structs, name).None?
    ensures r.Failure? ==> r.error == Internal("Unknown type: " + name)
    ensures r.Success? ==> r.value.Primitive? || r.value.Struct?
  {
    match PrimitiveByName(name)
    case Some(p) => Success(Primitive(p))
    case None =>
      if FindStruct(g.structs, name).Some? then Success(Struct(name))
      else Failure(Internal("Unknown type: " + name))
  }

  /** typeify (xl_types.py:11-24). The source overwrites the element type of
      an array in place and returns the (same) type object; every caller
      stores the returned type back, so the model returns the resolved type.
      Only a placeholder or an array of a placeholder may be resolved. */
  function Typeify(t: VarType, g: GlobalScope): (r: Result<VarType, Error>)
    ensures t.Unknown? && t.name != "" ==> r == GetTypeFromString(g, t.name)
    ensures t.Array? && t.elem.Unknown? && t.elem.name != "" ==>
              r == (match GetTypeFromString(g, t.elem.name)
                    case Success(e) => Success(Array(e))
                    case Failure(err) => Failure(err))
    ensures !(t.Unknown? || (t.Array? && t.elem.Unknown?)) ==> r.Failure? && r.error.Internal?
    ensures r.Success? ==> IsResolved(r.value)
  {
    match t
    case Array(elem) =>
      if !elem.Unknown? || elem.name == "" then Failure(Internal("assertion failed in typeify"))
      else
        var e :- GetTypeFromString(g, elem.name);
        Success(Array(e))
    case Unknown(name) =>
      if name == "" then Failure(Internal("assertion failed in typeify"))
      else GetTypeFromString(g, name)
    case _ => Failure(Internal("Unhandled type in struct validation pass"))
  }

  /** A type the validation pass can produce by resolution: no placeholder,
      no enum and no BUILTIN_GENERIC anywhere in it. */
  predicate IsResolved(t: VarType)
  {
    match t
    case Primitive(_) => true
    case Struct(_) => true
    case Array(e) => IsResolved(e)
    case _ => false
  }

  /** The boundary tables SIGNED and UNSIGNED (xl_types.py:62-74). */
  const Signed: seq<int> := [-128, -32768, -2147483648, -9223372036854775808]
  const Unsigned: seq<int> := [255, 65535, 4294967295, 18446744073709551615]

  /** The signed and unsigned integer primitives, narrowest first. */
  const SignedTypes: seq<PrimitiveType> := [I8, I16, I32, I64]
  const UnsignedTypes: seq<PrimitiveType> := [U8, U16, U32, U64]

  /** The range of values of an integer primitive of the given width. */
  function MinValue(p: PrimitiveType): int
  {
    if IsSignedInt(p) then -(Pow2(BitWidth(p) - 1) as int) else 0
  }

  function MaxValue(p: PrimitiveType): int
  {
    if IsSignedInt(p) then Pow2(BitWidth(p) - 1) - 1
    else if IsUnsignedInt(p) then Pow2(BitWidth(p)) - 1
    else -1
  }

  function Pow2(n: nat): (r: nat)
    ensures r >= 1
  {
    if n == 0 then 1 else 2 * Pow2(n - 1)
  }

  predicate FitsIn(v: int, p: PrimitiveType)
  {
    MinValue(p) <= v <= MaxValue(p)
  }

  /** The powers of two the integer widths need. */
  lemma Powers()
    ensures Pow2(7) == 128 && Pow2(8) == 256
    ensures Pow2(15) == 32768 && Pow2(16) == 65536
    ensures Pow2(31) == 2147483648 && Pow2(32) == 4294967296
    ensures Pow2(63) == 9223372036854775808 && Pow2(64) == 18446744073709551616
  {
    assert Pow2(7) == 128;
    assert Pow2(8) == 256;
    Pow2Add(7, 8);
    Pow2Add(8, 8);
    Pow2Add(15, 16);
    Pow2Add(16, 16);
    Pow2Add(31, 32);
    Pow2Add(32, 32);
  }

  /** The tables are the bounds of the four widths. */
  lemma TablesAreTheBounds(k: nat)
    requires k < 4
    ensures Signed[k] == MinValue(SignedTypes[k])
    ensures Unsigned[k] == MaxValue(UnsignedTypes[k])
  {
    IntegerBounds();
    if k == 0 {
      assert SignedTypes[0] == I8 && UnsignedTypes[0] == U8;
    } else if k == 1 {
      assert SignedTypes[1] == I16 && UnsignedTypes[1] == U16;
    } else if k == 2 {
      assert SignedTypes[2] == I32 && UnsignedTypes[2] == U32;
    } else {
      assert SignedTypes[3] == I64 && UnsignedTypes[3] == U64;
    }
  }

  lemma {:induction false} Pow2Add(a: nat, b: nat)
    ensures Pow2(a + b) == Pow2(a) * Pow2(b)
  {
    if a > 0 {
      Pow2Add(a - 1, b);
    }
  }

  /** primitive_type_from_constant (xl_types.py:77-99). */
  function PrimitiveTypeFromConstant(v: int, ctx: ParseContext): (r: Result<VarType, Error>)
  {
    if v < 0 then
      if v >= Signed[0] then Success(Primitive(I8))
      else if v >= Signed[1] then Success(Primitive(I16))
      else if v >= Signed[2] then Success(Primitive(I32))
      else if v >= Signed[3] then Success(Primitive(I64))
      else Failure(Context("Constant out of range", ctx))
    else
      if v <= Unsigned[0] then Success(Primitive(U8))
      else if v <= Unsigned[1] then Success(Primitive(U16))
      else if v <= Unsigned[2] then Success(Primitive(U32))
      else if v <= Unsigned[3] then Success(Primitive(U64))
      else Failure(Context("Constant out of range", ctx))
  }

  /** Both integer primitives, both signed or both unsigned. */
  predicate SameFamily(p: PrimitiveType, q: PrimitiveType)
  {
    (IsSignedInt(p) && IsSignedInt(q)) || (IsUnsignedInt(p) && IsUnsignedInt(q))
  }

  /** The bounds of the four signed widths as numbers. */
  lemma SignedBounds()
    ensures MinValue(I8) == -128 && MaxValue(I8) == 127
    ensures MinValue(I16) == -32768 && MaxValue(I16) == 32767
    ensures MinValue(I32) == -2147483648 && MaxValue(I32) == 2147483647
    ensures MinValue(I64) == -9223372036854775808 && MaxValue(I64) == 9223372036854775807
  {
    Powers();
  }

  /** The bounds of the four unsigned widths as numbers. */
  lemma UnsignedBounds()
    ensures MinValue(U8) == 0 && MaxValue(U8) == 255
    ensures MinValue(U16) == 0 && MaxValue(U16) == 65535
    ensures MinValue(U32) == 0 && MaxValue(U32) == 4294967295
    ensures MinValue(U64) == 0 && MaxValue(U64) == 18446744073709551615
  {
    Powers();
  }

  /** The bounds of the eight integer widths as numbers. */
  lemma IntegerBounds()
    ensures MinValue(I8) == -128 && MaxValue(I8) == 127
    ensures MinValue(I16) == -32768 && MaxValue(I16) == 32767
    ensures MinValue(I32) == -2147483648 && MaxValue(I32) == 2147483647
    ensures MinValue(I64) == -9223372036854775808 && MaxValue(I64) == 9223372036854775807
    ensures MinValue(U8) == 0 && MaxValue(U8) == 255
    ensures MinValue(U16) == 0 && MaxValue(U16) == 65535
    ensures MinValue(U32) == 0 && MaxValue(U32) == 4294967295
    ensures MinValue(U64) == 0 && MaxValue(U64) == 18446744073709551615
  {
    SignedBounds();
    UnsignedBounds();
  }

  /** No integer type of `p`'s family narrower than `p` holds `v`. */
  predicate NoNarrowerFit(v: int, p: PrimitiveType)
  {
    forall q :: SameFamily(q, p) && BitWidth(q) < BitWidth(p) ==> !FitsIn(v, q)
  }

  /** A value below the minimum of every signed width under `p`'s fits none
      of them. */
  lemma NoNarrowerSigned(v: int, p: PrimitiveType)
    requires IsSignedInt(p)
    requires p != I8 ==> v < -128
    requires p == I32 || p == I64 ==> v < -32768
    requires p == I64 ==> v < -2147483648
    ensures NoNarrowerFit(v, p)
  {
    SignedBounds();
    forall q | SameFamily(q, p) && BitWidth(q) < BitWidth(p)
      ensures !FitsIn(v, q)
    {
      assert IsSignedInt(q) && BitWidth(p) <= 64;
      if q == I8 {
      } else if q == I16 {
        assert p == I32 || p == I64;
      } else {
        assert q == I32 && p == I64;
      }
    }
  }

  /** A value above the maximum of every unsigned width under `p`'s fits
      none of them. */
  lemma NoNarrowerUnsigned(v: int, p: PrimitiveType)
    requires IsUnsignedInt(p)
    requires p != U8 ==> v > 255
    requires p == U32 || p == U64 ==> v > 65535
    requires p == U64 ==> v > 4294967295
    ensures NoNarrowerFit(v, p)
  {
    UnsignedBounds();
    forall q | SameFamily(q, p) && BitWidth(q) < BitWidth(p)
      ensures !FitsIn(v, q)
    {
      assert IsUnsignedInt(q) && BitWidth(p) <= 64;
      if q == U8 {
      } else if q == U16 {
        assert p == U32 || p == U64;
      } else {
        assert q == U32 && p == U64;
      }
    }
  }

  /** A negative literal gets the narrowest signed type that holds it. */
  lemma NegativeLiteralType(v: int, ctx: ParseContext)
    requires v < 0
    ensures var r := PrimitiveTypeFromConstant(v, ctx);
      && (r.Failure? <==> v < MinValue(I64))
      && (r.Success? ==>
            && r.value.Primitive? && IsSignedInt(r.value.primitive) && FitsIn(v, r.value.primitive)
            && NoNarrowerFit(v, r.value.primitive))
  {
    SignedBounds();
    var r := PrimitiveTypeFromConstant(v, ctx);
    if v >= -128 {
      assert r == Success(Primitive(I8));
    } else if v >= -32768 {
      assert r == Success(Primitive(I16));
    } else if v >= -2147483648 {
      assert r == Success(Primitive(I32));
    } else if v >= -9223372036854775808 {
      assert r == Success(Primitive(I64));
    }
    if r.Success? {
      NoNarrowerSigned(v, r.value.primitive);
    }
  }

  /** A non-negative literal gets the narrowest unsigned type that holds it. */
  lemma NonNegativeLiteralType(v: int, ctx: ParseContext)
    requires v >= 0
    ensures var r := PrimitiveTypeFromConstant(v, ctx);
      && (r.Failure? <==> v > MaxValue(U64))
      && (r.Success? ==>
            && r.value.Primitive? && IsUnsignedInt(r.value.primitive) && FitsIn(v, r.value.primitive)
            && NoNarrowerFit(v, r.value.primitive))
  {
    UnsignedBounds();
    var r := PrimitiveTypeFromConstant(v, ctx);
    if v <= 255 {
      assert r == Success(Primitive(U8));
    } else if v <= 65535 {
      assert r == Success(Primitive(U16));
    } else if v <= 4294967295 {
      assert r == Success(Primitive(U32));
    } else if v <= 18446744073709551615 {
      assert r == Success(Primitive(U64));
    }
    if r.Success? {
      NoNarrowerUnsigned(v, r.value.primitive);
    }
  }

  /** A literal gets the narrowest type of its signedness family that holds
      it: signed for a negative literal, unsigned otherwise; literals outside
      [-2^63, 2^64-1] are rejected with "Constant out of range". */
  lemma LiteralTypeIsNarrowest(v: int, ctx: ParseContext)
    ensures var r := PrimitiveTypeFromConstant(v, ctx);
      && (r.Failure? <==> v < MinValue(I64) || v > MaxValue(U64))
      && (r.Failure? ==> r.error == Context("Constant out of range", ctx))
      && (r.Success? ==>
            && r.value.Primitive?
            && FitsIn(v, r.value.primitive)
            && (v < 0 <==> IsSignedInt(r.value.primitive))
            && (v >= 0 <==> IsUnsignedInt(r.value.primitive))
            && (forall q :: SameFamily(q, r.value.primitive) && BitWidth(q) < BitWidth(r.value.primitive) ==> !FitsIn(v, q)))
  {
    IntegerBounds();
    if v < 0 {
      NegativeLiteralType(v, ctx);
    } else {
      NonNegativeLiteralType(v, ctx);
    }
  }

  /** The category of a type (VariableTypeEnum). */
  datatype Category = UNKNOWN | PRIMITIVE | ARRAY | STRUCT | ENUM | BUILTIN_GENERIC

  function CategoryOf(t: VarType): Category
  {
    match t
    case Unknown(_) => UNKNOWN
    case Primitive(_) => PRIMITIVE
    case Array(_) => ARRAY
    case Struct(_) => STRUCT
    case Enum(_) => ENUM
    case BuiltinGeneric => BUILTIN_GENERIC
  }

  /** PRIMITIVE_AUTO_CONVERSION (xl_types.py:102-131): target => sources. */
  const AutoConversion: map<PrimitiveType, seq<PrimitiveType>> := map[
    U8 := [U8],
    I8 := [I8],
    U16 := [U8, U16],
    I16 := [U8, I8, I16],
    U32 := [U8, U16, U32],
    I32 := [U8, U16, I8, I16, I32],
    U64 := [U8, U16, U32, U64],
    I64 := [U8, U16, U32, I8, I16, I32, I64]
  ]

  /** is_type_compatible (xl_types.py:134-155): can `source` be assigned to
      `target`? Two placeholders or two enums reach the final branch, which
      is an internal compiler error. */
  function IsTypeCompatible(target: VarType, source: VarType): (r: Result<bool, Error>)
    ensures target.BuiltinGeneric? ==> r == Success(true)
    ensures !target.BuiltinGeneric? && CategoryOf(target) != CategoryOf(source) ==> r == Success(false)
    ensures target.Struct? && source.Struct? ==> r == Success(target.name == source.name)
    ensures r.Failure? ==> r.error == Internal("Unhandled type in is_type_compatible")
  {
    if target.BuiltinGeneric? then Success(true)
    else if CategoryOf(target) != CategoryOf(source) then Success(false)
    else
      match target
      case Array(te) => IsTypeCompatible(te, source.elem)
      case Struct(n) => Success(n == source.name)
      case Primitive(tp) =>
        if tp in AutoConversion then Success(source.primitive in AutoConversion[tp])
        else Success(tp == source.primitive)
      case _ => Failure(Internal("Unhandled type in is_type_compatible"))
  }

  /** `target` accepts `source` without error. */
  predicate Compatible(target: VarType, source: VarType)
  {
    IsTypeCompatible(target, source) == Success(true)
  }

  /** Widening stated independently of the table: the same primitive, a
      narrower unsigned into a wider unsigned, a narrower-or-equal signed
      into a signed, or a strictly narrower unsigned into a signed. */
  predicate Widens(source: PrimitiveType, target: PrimitiveType)
  {
    || source == target
    || (IsUnsignedInt(source) && IsUnsignedInt(target) && BitWidth(source) < BitWidth(target))
    || (IsSignedInt(source) && IsSignedInt(target) && BitWidth(source) < BitWidth(target))
    || (IsUnsignedInt(source) && IsSignedInt(target) && BitWidth(source) < BitWidth(target))
  }

  /** The table is exactly the widening relation. */
  lemma PrimitiveCompatibleIffWidens(target: PrimitiveType, source: PrimitiveType)
    ensures IsTypeCompatible(Primitive(target), Primitive(source)) == Success(Widens(source, target))
  {
  }

  /** No unsigned target accepts a signed source; unsigned targets accept
      exactly the narrower-or-equal unsigned sources; signed targets accept
      narrower-or-equal signed and strictly narrower unsigned sources. */
  lemma WideningDirection(target: PrimitiveType, source: PrimitiveType)
    ensures IsUnsignedInt(target) ==>
              (Compatible(Primitive(target), Primitive(source)) <==>
                 IsUnsignedInt(source) && BitWidth(source) <= BitWidth(target))
    ensures IsSignedInt(target) ==>
              (Compatible(Primitive(target), Primitive(source)) <==>
                 (IsSignedInt(source) && BitWidth(source) <= BitWidth(target))
                 || (IsUnsignedInt(source) && BitWidth(source) < BitWidth(target)))
    ensures !IsSignedInt(target) && !IsUnsignedInt(target) ==>
              (Compatible(Primitive(target), Primitive(source)) <==> source == target)
  {
    PrimitiveCompatibleIffWidens(target, source);
  }

  lemma I32AcceptsU8ButNotConversely()
    ensures Compatible(Primitive(I32), Primitive(U8))
    ensures !Compatible(Primitive(U8), Primitive(I32))
  {
  }

  /** Reflexivity on every resolved type. */
  lemma {:induction false} CompatibleReflexive(t: VarType)
    requires IsResolved(t)
    ensures Compatible(t, t)
  {
    match t
    case Array(e) => CompatibleReflexive(e);
    case Primitive(p) => PrimitiveCompatibleIffWidens(p, p);
    case Struct(_) =>
  }

  /** Mutual compatibility implies equality. */
  lemma {:induction false} CompatibleAntisymmetric(a: VarType, b: VarType)
    requires Compatible(a, b) && Compatible(b, a)
    ensures a == b
  {
    match a
    case Array(ae) => CompatibleAntisymmetric(ae, b.elem);
    case Primitive(p) =>
      PrimitiveCompatibleIffWidens(p, b.primitive);
      PrimitiveCompatibleIffWidens(b.primitive, p);
    case _ =>
  }

  lemma {:induction false} CompatibleTransitive(a: VarType, b: VarType, c: VarType)
    requires Compatible(a, b) && Compatible(b, c)
    ensures Compatible(a, c)
  {
    match a
    case Array(ae) =>
      if b.Array? {
        CompatibleTransitive(ae, b.elem, c.elem);
      }
    case Primitive(p) =>
      if b.Primitive? && c.Primitive? {
        PrimitiveCompatibleIffWidens(p, b.primitive);
        PrimitiveCompatibleIffWidens(b.primitive, c.primitive);
        PrimitiveCompatibleIffWidens(p, c.primitive);
      }
    case _ =>
  }

  /** Two enum types never compare without an internal compiler error. */
  lemma EnumPairIsInternalError(a: string, b: string)
    ensures IsTypeCompatible(Enum(a), Enum(b)).Failure?
  {
  }
}
