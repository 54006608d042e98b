/**
 * ObjectRecordValue: the lazy record over a host object. It holds the
 * source reference and the record marshaler's accessor table, and reads a
 * property only when that field is asked for.
 */
module ObjectRecord {
  import opened Model
  import opened Reflection
  import opened FormulaTypes
  import opened Marshalers

  /** `ObjectRecordValue.Source`: the wrapped host reference. */
  function Source(rec: FxValue): HostValue
    requires rec.ObjRecordV?
  {
    rec.source
  }

  /** `ObjectRecordValue.GetField`: the marshaler's `TryGetField` on the
      source; a null answer (unmapped name, or a field whose marshaler gave
      null) becomes an error value rather than an exception. */
  function GetField(h: Heap, rec: FxValue, name: string): (r: Result<FxValue>)
    requires rec.ObjRecordV? && HeapOk(h) && Allocated(h, rec.source)
    ensures name !in rec.mapping ==> r == Ok(ErrorV)
    ensures TryGetField(rec.mapping, h, rec.source, name) == Ok(None) ==> r == Ok(ErrorV)
    ensures TryGetField(rec.mapping, h, rec.source, name).Ok? ==> r.Ok?
    ensures forall x :: TryGetField(rec.mapping, h, rec.source, name) == Ok(Some(x)) ==> r == Ok(x)
    ensures r.Err? ==> TryGetField(rec.mapping, h, rec.source, name) == Err(r.error)
  {
    match TryGetField(rec.mapping, h, rec.source, name)
    case Err(e) => Err(e)
    case Ok(None) => Ok(ErrorV)
    case Ok(Some(x)) => Ok(x)
  }

  /** A field read marshals the property's value as it is in the heap at the
      time of the read; nothing is memoised, so after the host changes the
      property the next read sees the new value. */
  lemma ReadSeesCurrentValue(h: Heap, rec: FxValue, name: string, x: HostValue)
    requires rec.ObjRecordV? && HeapOk(h) && Allocated(h, rec.source) && Allocated(h, x)
    requires name in rec.mapping && rec.source.Ref? && h[rec.source.addr].Instance?
    requires rec.mapping[name].prop.name in h[rec.source.addr].props
    ensures var o := h[rec.source.addr];
            var h' := h[rec.source.addr := Instance(o.cls, o.props[rec.mapping[name].prop.name := x])];
            HeapOk(h') &&
            TryGetField(rec.mapping, h', rec.source, name) == Apply(rec.mapping[name].nested, h', x)
  {
    var o := h[rec.source.addr];
    var h' := h[rec.source.addr := Instance(o.cls, o.props[rec.mapping[name].prop.name := x])];
    forall a | a in h' ensures ObjOk(h', h'[a]) {
      assert ObjOk(h, h[a]);
    }
  }

  /** A field read depends on the heap only through the one property it
      reads (and, for an array-valued property, that array): two heaps that
      agree on that property's value give the same result. */
  lemma ReadsOnlyItsProperty(h1: Heap, h2: Heap, rec: FxValue, name: string)
    requires rec.ObjRecordV? && HeapOk(h1) && HeapOk(h2) && Allocated(h1, rec.source)
    requires SameExceptProperties(h1, h2)
    requires name in rec.mapping && rec.source.Ref?
    requires ReadProperty(h1, rec.source, rec.mapping[name].prop) == ReadProperty(h2, rec.source, rec.mapping[name].prop)
    ensures Allocated(h2, rec.source)
    ensures GetField(h1, rec, name) == GetField(h2, rec, name)
  {
    var r := ReadProperty(h1, rec.source, rec.mapping[name].prop);
    if r.Ok? {
      MarshalReadsNoProperties(rec.mapping[name].nested, h1, h2, r.value);
    }
  }

  /** A record marshaled by a marshaler bound to its class, over a typed
      heap, answers every field read: an unmapped name gives the error
      value, and the only failure left is a null array-valued property. */
  lemma PairedGetFieldSucceeds(classes: ClassTable, m: Marshaler, h: Heap, a: Addr, name: string)
    requires HeapTyped(classes, h) && a in h && h[a].Instance?
    requires Fits(classes, m, TClass(h[a].cls)) && m.ObjectM?
    ensures HeapOk(h)
    ensures var rec := Apply(m, h, Ref(a)).value.value;
            && Source(rec) == Ref(a)
            && (name !in m.mapping ==> GetField(h, rec, name) == Ok(ErrorV))
            && (GetField(h, rec, name).Err? ==> GetField(h, rec, name).error == NullReference)
  {
    TypedHeapIsClosed(classes, h);
    var rec := Apply(m, h, Ref(a)).value.value;
    if name in m.mapping {
      var g := m.mapping[name];
      assert ObjTyped(classes, h, h[a]);
      assert g.prop in Properties(classes, TClass(h[a].cls));
      var pv := h[a].props[g.prop.name];
      assert HasType(h, pv, g.prop.ty);
      if g.nested != EmptyM {
        PairedMarshalSucceeds(classes, g.nested, h, pv, g.prop.ty);
      }
    }
  }
}
