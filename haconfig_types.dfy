/** The shapes of configuration records that haconfig/config.go walks by
    reflection, as a closed datatype: a Go type (`Type`), a struct field
    (`Field`, with its `required:"true"` tag) and a value of a type
    (`Value`). Go's int and uint are taken to be 64 bits wide. */
module HaconfigTypes {
  import opened GoOption

  datatype IntWidth = W8 | W16 | W32 | W64

  /** Kinds the loader does not coerce into. */
  datatype OtherKind =
    | MapKind | ChanKind | FuncKind | InterfaceKind | ArrayKind
    | Complex64Kind | Complex128Kind | UintptrKind | UnsafePointerKind

  datatype Type =
    | TString
    | TBool
    | TInt(width: IntWidth)
    | TDuration
    | TUint(uwidth: IntWidth)
    | TFloat32
    | TFloat64
    | TTime
    | TSlice(elem: Type)
    | TPtr(target: Type)
    | TStruct(fields: seq<Field>)
    | TOther(kind: OtherKind)

  /** An exported struct field; `required` is the tag required:"true". */
  datatype Field = Field(name: string, typ: Type, required: bool)

  /** A float64 by its IEEE 754 bit pattern (a float32 field holds the
      float64 widening of its value). */
  datatype FloatVal = FloatVal(bits: bv64)

  /** A time.Time by its three internal words; the location is a pointer
      compared by identity. */
  datatype TimeVal = TimeVal(wall: nat, ext: int, loc: Option<nat>)

  /** A value; nil slices and pointers are None. A value of one of the
      other kinds only records whether it is the zero value of its kind
      (nil, for the kinds that can be nil). */
  datatype Value =
    | VString(str: string)
    | VBool(b: bool)
    | VInt(i: int)
    | VUint(u: nat)
    | VFloat(f: FloatVal)
    | VTime(t: TimeVal)
    | VSlice(items: Option<seq<Value>>)
    | VPtr(ptr: Option<Value>)
    | VStruct(vals: seq<Value>)
    | VOther(isZero: bool)

  const ZeroTime := TimeVal(0, 0, None)
  const NegativeZeroBits: bv64 := 0x8000_0000_0000_0000

  /** 2^(bits - 1): the bound of the signed integers of a width. */
  function SignedLimit(w: IntWidth): (n: nat)
    ensures n >= 128
  {
    match w
    case W8 => 0x80
    case W16 => 0x8000
    case W32 => 0x8000_0000
    case W64 => 0x8000_0000_0000_0000
  }

  /** 2^bits: the bound of the unsigned integers of a width. */
  function UnsignedLimit(w: IntWidth): (n: nat)
    ensures n == 2 * SignedLimit(w)
  {
    match w
    case W8 => 0x100
    case W16 => 0x1_0000
    case W32 => 0x1_0000_0000
    case W64 => 0x1_0000_0000_0000_0000
  }

  predicate SignedFits(i: int, w: IntWidth)
  {
    -(SignedLimit(w) as int) <= i < SignedLimit(w)
  }

  /** reflect.Kind.String() of the other kinds. */
  function KindName(k: OtherKind): string
  {
    match k
    case MapKind => "map"
    case ChanKind => "chan"
    case FuncKind => "func"
    case InterfaceKind => "interface"
    case ArrayKind => "array"
    case Complex64Kind => "complex64"
    case Complex128Kind => "complex128"
    case UintptrKind => "uintptr"
    case UnsafePointerKind => "unsafe.Pointer"
  }

  /** The other kinds whose values can be nil. */
  predicate Nilable(k: OtherKind)
  {
    k == MapKind || k == ChanKind || k == FuncKind || k == InterfaceKind
  }

  /** v is a value of type t (field by field, element by element). */
  predicate Matches(t: Type, v: Value)
    decreases t
  {
    match t
    case TString => v.VString?
    case TBool => v.VBool?
    case TInt(w) => v.VInt? && SignedFits(v.i, w)
    case TDuration => v.VInt? && SignedFits(v.i, W64)
    case TUint(w) => v.VUint? && v.u < UnsignedLimit(w)
    case TFloat32 => v.VFloat?
    case TFloat64 => v.VFloat?
    case TTime => v.VTime?
    case TSlice(e) =>
      v.VSlice? && (v.items.Some? ==> forall k :: 0 <= k < |v.items.value| ==> Matches(e, v.items.value[k]))
    case TPtr(e) => v.VPtr? && (v.ptr.Some? ==> Matches(e, v.ptr.value))
    case TStruct(fs) =>
      v.VStruct? && |v.vals| == |fs| && forall k :: 0 <= k < |fs| ==> Matches(fs[k].typ, v.vals[k])
    case TOther(_) => v.VOther?
  }

  /** reflect.Zero: the value of a declared but unassigned variable. */
  function Zero(t: Type): (z: Value)
    ensures Matches(t, z)
    decreases t
  {
    match t
    case TString => VString("")
    case TBool => VBool(false)
    case TInt(_) => VInt(0)
    case TDuration => VInt(0)
    case TUint(_) => VUint(0)
    case TFloat32 => VFloat(FloatVal(0))
    case TFloat64 => VFloat(FloatVal(0))
    case TTime => VTime(ZeroTime)
    case TSlice(_) => VSlice(None)
    case TPtr(_) => VPtr(None)
    case TStruct(fs) => VStruct(seq(|fs|, k requires 0 <= k < |fs| => Zero(fs[k].typ)))
    case TOther(_) => VOther(true)
  }

  /** The field values of a struct value, or the zero values when the
      value is not a struct of that many fields (which a value of the
      struct's type always is). */
  function StructVals(fs: seq<Field>, v: Value): (vs: seq<Value>)
    ensures |vs| == |fs|
    ensures v.VStruct? && |v.vals| == |fs| ==> vs == v.vals
    ensures Matches(TStruct(fs), v) ==> vs == v.vals
  {
    if v.VStruct? && |v.vals| == |fs| then v.vals else Zero(TStruct(fs)).vals
  }

  /** Go's == between a value and the zero value of its type, as a
      comparison of two structs makes it: member by member, a float by its
      value (so -0.0 equals 0), a slice or pointer by being nil, and a
      value of one of the other kinds by its flag. */
  predicate EqualsZero(t: Type, v: Value)
    decreases t
  {
    match t
    case TString => v == VString("")
    case TBool => v == VBool(false)
    case TInt(_) => v == VInt(0)
    case TDuration => v == VInt(0)
    case TUint(_) => v == VUint(0)
    case TFloat32 => v.VFloat? && (v.f.bits == 0 || v.f.bits == NegativeZeroBits)
    case TFloat64 => v.VFloat? && (v.f.bits == 0 || v.f.bits == NegativeZeroBits)
    case TTime => v == VTime(ZeroTime)
    case TSlice(_) => v == VSlice(None)
    case TPtr(_) => v == VPtr(None)
    case TStruct(fs) =>
      v.VStruct? && |v.vals| == |fs| && forall k :: 0 <= k < |fs| ==> EqualsZero(fs[k].typ, v.vals[k])
    case TOther(_) => v == VOther(true)
  }

  /** isZeroValue, by the kind of the type: "", false, 0, a float equal to
      zero (either sign), a nil slice, pointer, map, interface, channel or
      function, and for structs (time.Time included) == with the zero
      value. Arrays, complex numbers, uintptr and unsafe.Pointer are never
      zero. */
  predicate IsZeroValue(t: Type, v: Value)
  {
    if t.TOther? then Nilable(t.kind) && v == VOther(true) else EqualsZero(t, v)
  }

  /** Every zero value compares equal to itself. */
  lemma {:induction false} ZeroEqualsZero(t: Type)
    ensures EqualsZero(t, Zero(t))
    decreases t
  {
    match t
    case TStruct(fs) =>
      forall k | 0 <= k < |fs|
        ensures EqualsZero(fs[k].typ, Zero(t).vals[k])
      {
        ZeroEqualsZero(fs[k].typ);
      }
    case _ =>
  }

  /** The zero value of a type is zero, except for the kinds isZeroValue
      never calls zero (arrays, complex numbers, uintptr, unsafe.Pointer). */
  lemma ZeroIsZero(t: Type)
    ensures IsZeroValue(t, Zero(t)) <==> !(t.TOther? && !Nilable(t.kind))
  {
    ZeroEqualsZero(t);
  }

  /** A struct is zero member by member: one holding -0.0 is zero, and one
      holding an array that is not all zeros is not, although isZeroValue
      never calls an array zero by itself. */
  lemma StructMembers()
    ensures IsZeroValue(TStruct([Field("F", TFloat64, true)]), VStruct([VFloat(FloatVal(NegativeZeroBits))]))
    ensures !IsZeroValue(TStruct([Field("A", TOther(ArrayKind), true)]), VStruct([VOther(false)]))
    ensures IsZeroValue(TStruct([Field("A", TOther(ArrayKind), true)]), VStruct([VOther(true)]))
    ensures !IsZeroValue(TOther(ArrayKind), VOther(true))
  {
    var fs := [Field("A", TOther(ArrayKind), true)];
    assert !EqualsZero(fs[0].typ, VStruct([VOther(false)]).vals[0]);
  }

  /** An empty but allocated slice is not zero, and neither is a pointer
      to a zero value. */
  lemma AllocatedIsNotZero(e: Type)
    ensures !IsZeroValue(TSlice(e), VSlice(Some([])))
    ensures !IsZeroValue(TPtr(e), VPtr(Some(Zero(e))))
  {
  }

  /** For a value of a scalar type, zero means exactly one value. */
  lemma ScalarZero(t: Type, v: Value)
    requires Matches(t, v)
    requires t.TString? || t.TBool? || t.TInt? || t.TDuration? || t.TUint?
    ensures IsZeroValue(t, v) <==> v == Zero(t)
  {
  }
}
