/**
 * IdentityMarshalerProvider: host values that already are formula values
 * are passed through unchanged.
 */
module IdentityProvider {
  import opened Model

  /** `IdentityMarshalerProvider.New`: accepts exactly the types assignable
      to FormulaValue; the marshaler it builds declares a null Type. */
  function New(t: HostType): (r: Option<Marshaler>)
    ensures r.Some? <==> t == TFormulaValue
    ensures r.Some? ==> r.value == IdentityM
  {
    if t == TFormulaValue then Some(IdentityM) else None
  }

  /** `IdentityMarshaler.Marshal`: the `(FormulaValue)` cast. A formula value
      is returned as is, null stays null (`None`), anything else is an
      invalid cast. */
  function Marshal(v: HostValue): (r: Result<Option<FxValue>>)
    ensures v.FxV? <==> r.Ok? && r.value.Some?
    ensures v.FxV? ==> r == Ok(Some(v.fx))
    ensures v.Null? <==> r == Ok(None)
    ensures r.Err? ==> r.error == InvalidCast
  {
    match v
    case FxV(x) => Ok(Some(x))
    case Null => Ok(None)
    case _ => Err(InvalidCast)
  }
}
