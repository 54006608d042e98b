/**
 * The reflection services the marshalers use, over the explicit class table
 * and heap: type classification, property enumeration, the runtime type of a
 * value, and property reads (`PropertyInfo.GetValue`).
 */
module Reflection {
  import opened Model

  /** `Type.IsClass`: strings, arrays, formula values and user classes are
      reference types; `int` and `double` are value types. */
  predicate IsClass(t: HostType) {
    !(t == TInt || t == TDouble)
  }

  /** Public instance properties of a type in enumeration order. Only user
      classes have properties in this model. */
  function Properties(classes: ClassTable, t: HostType): seq<Prop> {
    if t.TClass? && t.name in classes then classes[t.name] else []
  }

  /** A reference points into the heap. */
  predicate Allocated(h: Heap, v: HostValue) {
    v.Ref? ==> v.addr in h
  }

  /** Every reference stored in the heap points into the heap. */
  predicate HeapOk(h: Heap) {
    forall a | a in h :: ObjOk(h, h[a])
  }

  predicate ObjOk(h: Heap, o: HeapObj) {
    match o
    case Instance(_, props) => forall k | k in props :: Allocated(h, props[k])
    case ArrayObj(_, items) => forall i | 0 <= i < |items| :: Allocated(h, items[i])
  }

  /** `value.GetType()` of a non-null host value. */
  function RuntimeType(h: Heap, v: HostValue): (t: HostType)
    requires v != Null && Allocated(h, v)
    ensures v.Ref? && h[v.addr].Instance? ==> t == TClass(h[v.addr].cls)
    ensures v.Ref? && h[v.addr].ArrayObj? ==> t == TArray(h[v.addr].elem)
    ensures HasType(h, v, t)
  {
    match v
    case IntV(_) => TInt
    case DoubleV(_) => TDouble
    case StrV(_) => TString
    case FxV(_) => TFormulaValue
    case Ref(a) =>
      match h[a]
      case Instance(c, _) => TClass(c)
      case ArrayObj(e, _) => TArray(e)
  }

  /** `PropertyInfo.GetValue(target)`: a null target, or one that is not an
      instance carrying the property, is a target error. */
  function ReadProperty(h: Heap, target: HostValue, p: Prop): (r: Result<HostValue>)
    requires HeapOk(h) && Allocated(h, target)
    ensures r.Ok? <==> target.Ref? && h[target.addr].Instance? && p.name in h[target.addr].props
    ensures r.Ok? ==> r.value == h[target.addr].props[p.name] && Allocated(h, r.value)
    ensures r.Err? ==> r.error == TargetError
  {
    if target.Ref? && h[target.addr].Instance? && p.name in h[target.addr].props then
      assert ObjOk(h, h[target.addr]);
      Ok(h[target.addr].props[p.name])
    else
      Err(TargetError)
  }

  /** A value is a valid inhabitant of a declared host type. */
  predicate HasType(h: Heap, v: HostValue, t: HostType) {
    match t
    case TInt => v.IntV?
    case TDouble => v.DoubleV?
    case TString => v.StrV? || v.Null?
    case TClass(c) => v.Null? || (v.Ref? && v.addr in h && h[v.addr].Instance? && h[v.addr].cls == c)
    case TArray(e) => v.Null? || (v.Ref? && v.addr in h && h[v.addr].ArrayObj? && h[v.addr].elem == e)
    case TFormulaValue => v.Null? || v.FxV?
  }

  /** Every object holds values of the types its class (or array) declares. */
  predicate HeapTyped(classes: ClassTable, h: Heap) {
    forall a | a in h :: ObjTyped(classes, h, h[a])
  }

  predicate ObjTyped(classes: ClassTable, h: Heap, o: HeapObj) {
    match o
    case Instance(c, props) =>
      && (forall k | k in props :: Allocated(h, props[k]))
      && forall p | p in Properties(classes, TClass(c)) :: p.name in props && HasType(h, props[p.name], p.ty)
    case ArrayObj(e, items) => forall i | 0 <= i < |items| :: HasType(h, items[i], e)
  }

  /** A typed heap is closed, and a typed value is allocated. */
  lemma TypedHeapIsClosed(classes: ClassTable, h: Heap)
    requires HeapTyped(classes, h)
    ensures HeapOk(h)
  {
    forall a | a in h
      ensures ObjOk(h, h[a])
    {
      assert ObjTyped(classes, h, h[a]);
      match h[a]
      case Instance(_, _) =>
      case ArrayObj(e, items) =>
        forall i | 0 <= i < |items| ensures Allocated(h, items[i]) {
          assert HasType(h, items[i], e);
        }
    }
  }

  /** A non-null value inhabits its own runtime type. */
  lemma HasRuntimeType(h: Heap, v: HostValue)
    requires v != Null && Allocated(h, v)
    ensures HasType(h, v, RuntimeType(h, v))
  {
  }

  lemma RuntimeTypeOfTyped(h: Heap, v: HostValue, t: HostType)
    requires HasType(h, v, t) && v != Null
    ensures Allocated(h, v) && RuntimeType(h, v) == t
  {
  }
}
