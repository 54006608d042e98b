/**
 * PrimitiveMarshalerProvider: the fixed map from `double`, `int` and
 * `string` to formula scalar types, and the scalar marshaler.
 */
module PrimitiveProvider {
  import opened Model
  import opened Reflection
  import opened FormulaTypes

  /** The provider's `_map`. */
  function TypeMap(t: HostType): Option<FxType> {
    match t
    case TDouble => Some(Number)
    case TInt => Some(Number)
    case TString => Some(Text)
    case _ => None
  }

  /** `PrimitiveMarshalerProvider.New`: a marshaler for exactly the three
      mapped types, `None` (null) for every other type. */
  function New(t: HostType): (r: Option<Marshaler>)
    ensures r.Some? <==> t in {TInt, TDouble, TString}
    ensures r.Some? ==> r.value.PrimitiveM?
    ensures r.Some? && t != TString ==> TypeOf(r.value) == Number
    ensures r.Some? && t == TString ==> TypeOf(r.value) == Text
  {
    match TypeMap(t)
    case Some(fxType) => Some(PrimitiveM(fxType))
    case None => None
  }

  /** `PrimitiveTypeMarshaler.Marshal`: an `int` becomes the equal number,
      anything else under Number is cast to `double`, under String cast to
      `string`; any other kind throws, after asking the value for its type
      (so a null value throws a null reference instead). */
  function Marshal(ty: FxType, v: HostValue): (r: Result<FxValue>)
    ensures ty == Number && v.IntV? ==> r == Ok(NumberV(v.i as real))
    ensures ty == Number && v.DoubleV? ==> r == Ok(NumberV(v.d))
    ensures ty == Number && v.Null? ==> r == Err(NullReference)
    ensures ty == Number && !(v.IntV? || v.DoubleV? || v.Null?) ==> r == Err(InvalidCast)
    ensures ty == Text && v.StrV? ==> r == Ok(StringV(v.s))
    ensures ty == Text && v.Null? ==> r == Ok(NullStringV)
    ensures ty == Text && !(v.StrV? || v.Null?) ==> r == Err(InvalidCast)
    ensures ty !in {Number, Text} && v.Null? ==> r == Err(NullReference)
    ensures ty !in {Number, Text} && !v.Null? ==> r == Err(Unsupported)
  {
    if ty == Number then
      match v
      case IntV(i) => Ok(NumberV(i as real))
      case DoubleV(d) => Ok(NumberV(d))
      case Null => Err(NullReference)
      case _ => Err(InvalidCast)
    else if ty == Text then
      match v
      case StrV(s) => Ok(StringV(s))
      case Null => Ok(NullStringV)
      case _ => Err(InvalidCast)
    else if v.Null? then
      Err(NullReference)
    else
      Err(Unsupported)
  }

  /** A marshaler from `New(t)` applied to a value of type `t` never fails
      (in particular never reaches the "Unsupported type" throw) and
      produces a value of the marshaler's declared Type. */
  lemma PairedMarshalConforms(h: Heap, t: HostType, v: HostValue)
    requires New(t).Some? && HasType(h, v, t)
    ensures Marshal(New(t).value.ty, v).Ok?
    ensures Conforms(Marshal(New(t).value.ty, v).value, TypeOf(New(t).value))
  {
  }
}
