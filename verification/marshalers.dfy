/**
 * `ITypeMarshaler.Marshal` for every marshaler kind (scalar, identity,
 * record, table and the resolver's `Empty`), the `ObjectMarshaler`
 * constructor and `TryGetField`, and the LazyTableValue row construction.
 *
 * `Apply` returns `None` for a null formula value (only the identity
 * marshaler produces one, from a null host value).
 */
module Marshalers {
  import opened Model
  import opened Reflection
  import opened FormulaTypes
  import PrimitiveProvider
  import IdentityProvider

  /** The `ObjectMarshaler` constructor: the type must be a record. */
  function NewObjectMarshaler(ty: FxType, mapping: map<string, Getter>): (r: Result<Marshaler>)
    ensures r.Ok? <==> ty.Record?
    ensures r.Ok? ==> r.value.ObjectM? && TypeOf(r.value) == ty && r.value.mapping == mapping
    ensures r.Err? ==> r.error == ArgumentError
  {
    if ty.Record? then Ok(ObjectM(ty, mapping)) else Err(ArgumentError)
  }

  /** Marshal one host value. A record marshaler only wraps the source; a
      table marshaler builds its rows eagerly, in array order. */
  function Apply(m: Marshaler, h: Heap, v: HostValue): (r: Result<Option<FxValue>>)
    requires HeapOk(h) && Allocated(h, v)
    ensures v != Null && r.Ok? ==> r.value.Some?
    ensures m.ObjectM? ==> r.Ok? && r.value.Some? && r.value.value.ObjRecordV?
                           && r.value.value.source == v && r.value.value.mapping == m.mapping
    ensures m.EmptyM? ==> r == Ok(Some(EmptyRecordV))
    ensures m.PrimitiveM? && PrimitiveProvider.Marshal(m.ty, v).Ok? ==>
              r == Ok(Some(PrimitiveProvider.Marshal(m.ty, v).value))
    ensures m.PrimitiveM? && PrimitiveProvider.Marshal(m.ty, v).Err? ==>
              r == Err(PrimitiveProvider.Marshal(m.ty, v).error)
    ensures m.IdentityM? ==> r == IdentityProvider.Marshal(v)
    ensures m.TableM? && r.Ok? ==>
              && v.Ref? && h[v.addr].ArrayObj?
              && r.value.Some? && r.value.value.LazyTableV? && r.value.value.source == v
              && |r.value.value.rows| == |h[v.addr].items|
    ensures m.TableM? && v.Null? ==> r == Err(NullReference)
    ensures m.TableM? && !v.Null? && !(v.Ref? && h[v.addr].ArrayObj?) ==> r == Err(InvalidCast)
    ensures m.TableM? && v.Ref? && h[v.addr].ArrayObj? && ObjOk(h, h[v.addr]) ==>
              && (r.Ok? <==> Rows(m.row, h, h[v.addr].items).Ok?)
              && (r.Ok? ==> r.value.value == LazyTableV(m.ty, v, m.row, Rows(m.row, h, h[v.addr].items).value))
              && (r.Err? ==> r.error == Rows(m.row, h, h[v.addr].items).error)
    decreases m, 0
  {
    match m
    case EmptyM => Ok(Some(EmptyRecordV))
    case IdentityM => IdentityProvider.Marshal(v)
    case PrimitiveM(ty) =>
      (match PrimitiveProvider.Marshal(ty, v)
       case Ok(x) => Ok(Some(x))
       case Err(e) => Err(e))
    case ObjectM(ty, mapping) => Ok(Some(ObjRecordV(ty, v, mapping)))
    case TableM(ty, row) =>
      match v
      case Null => Err(NullReference)
      case Ref(a) =>
        if h[a].ArrayObj? then
          assert ObjOk(h, h[a]);
          match Rows(row, h, h[a].items)
          case Ok(rows) => Ok(Some(LazyTableV(ty, v, row, rows)))
          case Err(e) => Err(e)
        else Err(InvalidCast)
      case _ => Err(InvalidCast)
  }

  /** A row is usable when the row marshaler produced a record value. */
  predicate RowOk(r: Result<Option<FxValue>>) {
    r.Ok? && r.value.Some? && IsRecordValue(r.value.value)
  }

  /** The error a row that is not usable raises: the row marshaler's own
      exception, a null reference for a null row, otherwise the failed
      `(RecordValue)` cast. */
  function RowError(a: Result<Option<FxValue>>): Error {
    if a.Err? then a.error else if a.value.None? then NullReference else InvalidCast
  }

  /** Element `i` is the first whose row is unusable, and `e` is the error
      it raises. */
  predicate FailsFirstAt(row: Marshaler, h: Heap, items: seq<HostValue>, i: nat, e: Error)
    requires HeapOk(h) && forall k | 0 <= k < |items| :: Allocated(h, items[k])
    requires i < |items|
    decreases row, 1, 0
  {
    && (forall j | 0 <= j < i :: RowOk(Apply(row, h, items[j])))
    && !RowOk(Apply(row, h, items[i]))
    && e == RowError(Apply(row, h, items[i]))
  }

  /** A first failing row of the tail, behind a usable head row, is the
      first failing row of the whole sequence, one position later. */
  lemma LaterRowFails(row: Marshaler, h: Heap, items: seq<HostValue>, e: Error)
    requires HeapOk(h) && (forall k | 0 <= k < |items| :: Allocated(h, items[k])) && items != []
    requires RowOk(Apply(row, h, items[0]))
    requires exists i | 0 <= i < |items| - 1 :: FailsFirstAt(row, h, items[1..], i, e)
    ensures exists i | 0 <= i < |items| :: FailsFirstAt(row, h, items, i, e)
    decreases row, 1, 1
  {
    var i :| 0 <= i < |items| - 1 && FailsFirstAt(row, h, items[1..], i, e);
    assert forall k | 1 <= k < |items| :: items[k] == items[1..][k - 1];
    assert FailsFirstAt(row, h, items, i + 1, e);
  }

  /** The LazyTableValue constructor's loop: one row per element, in order,
      each the row marshaler's result cast to a record. The first element
      that fails stops the loop with its error. */
  function Rows(row: Marshaler, h: Heap, items: seq<HostValue>): (r: Result<seq<FxValue>>)
    requires HeapOk(h) && forall i | 0 <= i < |items| :: Allocated(h, items[i])
    ensures r.Ok? <==> forall i | 0 <= i < |items| :: RowOk(Apply(row, h, items[i]))
    ensures r.Ok? ==> |r.value| == |items|
    ensures r.Ok? ==> forall i | 0 <= i < |items| :: Apply(row, h, items[i]) == Ok(Some(r.value[i]))
    ensures r.Err? ==> exists i | 0 <= i < |items| :: FailsFirstAt(row, h, items, i, r.error)
    decreases row, 2, |items|
  {
    if items == [] then Ok([])
    else
      match Apply(row, h, items[0])
      case Err(e) =>
        assert FailsFirstAt(row, h, items, 0, e);
        Err(e)
      case Ok(None) =>
        assert FailsFirstAt(row, h, items, 0, NullReference);
        Err(NullReference)
      case Ok(Some(x)) =>
        if !IsRecordValue(x) then
          assert FailsFirstAt(row, h, items, 0, InvalidCast);
          Err(InvalidCast)
        else
          match Rows(row, h, items[1..])
          case Err(e) =>
            LaterRowFails(row, h, items, e);
            Err(e)
          case Ok(rest) =>
            assert forall i | 1 <= i < |items| :: items[i] == items[1..][i - 1];
            Ok([x] + rest)
  }

  /** `ObjectMarshaler.TryGetField`: a mapped name reads the property from
      the source now and marshals it with the field's nested marshaler; an
      unmapped name gives null (`None`). */
  function TryGetField(mapping: map<string, Getter>, h: Heap, source: HostValue, name: string): (r: Result<Option<FxValue>>)
    requires HeapOk(h) && Allocated(h, source)
    ensures name !in mapping ==> r == Ok(None)
    ensures name in mapping && ReadProperty(h, source, mapping[name].prop).Err? ==>
              r == Err(ReadProperty(h, source, mapping[name].prop).error)
    ensures name in mapping && ReadProperty(h, source, mapping[name].prop).Ok? ==>
              r == Apply(mapping[name].nested, h, ReadProperty(h, source, mapping[name].prop).value)
  {
    if name in mapping then
      match ReadProperty(h, source, mapping[name].prop)
      case Err(e) => Err(e)
      case Ok(pv) => Apply(mapping[name].nested, h, pv)
    else Ok(None)
  }

  /** The kind of marshaler each resolver produces for a host type. */
  predicate Shape(m: Marshaler, t: HostType) {
    match m
    case PrimitiveM(ty) => ((t == TInt || t == TDouble) && ty == Number) || (t == TString && ty == Text)
    case ObjectM(ty, _) => IsClass(t) && ty.Record?
    case TableM(ty, row) =>
      t.TArray? && IsClass(t.elem) && row.ObjectM? && row.ty.Record? && ty == Table(row.ty)
    case IdentityM => t == TFormulaValue
    case EmptyM => false
  }

  /** A field's marshaler: a proper one for the property type, or the
      resolver's `Empty` when the depth budget ran out. */
  predicate NestedFits(m: Marshaler, t: HostType) {
    m == EmptyM || Shape(m, t)
  }

  /** Marshaler `m` is bound to host type `t`: its kind matches `t`, and a
      record marshaler's getters read readable properties of `t` with
      marshalers for those properties' types. */
  predicate Fits(classes: ClassTable, m: Marshaler, t: HostType) {
    && Shape(m, t)
    && (m.ObjectM? ==> GettersFit(classes, m.mapping, t))
  }

  predicate GettersFit(classes: ClassTable, mapping: map<string, Getter>, t: HostType) {
    forall k | k in mapping ::
      && mapping[k].prop in Properties(classes, t)
      && mapping[k].prop.canRead
      && NestedFits(mapping[k].nested, mapping[k].prop.ty)
  }

  /** Applying a record-marshaler row to any element gives a record row. */
  lemma ObjectRowsOk(row: Marshaler, h: Heap, items: seq<HostValue>)
    requires row.ObjectM? && HeapOk(h) && forall i | 0 <= i < |items| :: Allocated(h, items[i])
    ensures Rows(row, h, items).Ok?
  {
    forall i | 0 <= i < |items| ensures RowOk(Apply(row, h, items[i])) {
    }
  }

  /** The resolver pairs marshalers only with values of their type; under
      that pairing marshaling never fails with a cast error. The one failure
      left is a table marshaler given a null array. */
  lemma PairedMarshalSucceeds(classes: ClassTable, m: Marshaler, h: Heap, v: HostValue, t: HostType)
    requires Shape(m, t) && HeapTyped(classes, h) && HasType(h, v, t)
    ensures HeapOk(h) && Allocated(h, v)
    ensures Apply(m, h, v).Err? ==> v == Null && m.TableM? && Apply(m, h, v).error == NullReference
  {
    TypedHeapIsClosed(classes, h);
    if m.TableM? && v.Ref? {
      assert ObjOk(h, h[v.addr]);
      ObjectRowsOk(m.row, h, h[v.addr].items);
    }
  }

  /** A marshaler bound to a type declares, as its Type, the type of every
      value it produces; the identity marshaler declares none. */
  lemma MarshalConformsToType(m: Marshaler, h: Heap, v: HostValue, t: HostType)
    requires Shape(m, t) && HeapOk(h) && Allocated(h, v)
    requires Apply(m, h, v).Ok? && Apply(m, h, v).value.Some?
    ensures m != IdentityM ==> Conforms(Apply(m, h, v).value.value, TypeOf(m))
  {
    if m.TableM? {
      var rows := Apply(m, h, v).value.value.rows;
      assert ObjOk(h, h[v.addr]);
      var items := h[v.addr].items;
      assert Rows(m.row, h, items).Ok?;
      forall i | 0 <= i < |rows| ensures Conforms(rows[i], m.ty.row) {
        assert Apply(m.row, h, items[i]) == Ok(Some(rows[i]));
      }
    }
  }

  /** The `Empty` marshaler declares Blank but produces the empty record. */
  lemma EmptyTypeDisagreesWithValue(h: Heap, v: HostValue)
    requires HeapOk(h) && Allocated(h, v)
    ensures !Conforms(Apply(EmptyM, h, v).value.value, TypeOf(EmptyM))
  {
  }

  /** Two heaps that differ at most in the property values of class
      instances (same objects, same classes, same arrays). */
  predicate SameExceptProperties(h1: Heap, h2: Heap) {
    && h1.Keys == h2.Keys
    && forall a | a in h1 ::
         && (h1[a].ArrayObj? ==> h2[a] == h1[a])
         && (h1[a].Instance? ==> h2[a].Instance? && h2[a].cls == h1[a].cls)
  }

  /** Marshaling reads no properties: its result does not depend on the
      property values of any instance. */
  lemma {:induction false} MarshalReadsNoProperties(m: Marshaler, h1: Heap, h2: Heap, v: HostValue)
    requires HeapOk(h1) && HeapOk(h2) && Allocated(h1, v) && SameExceptProperties(h1, h2)
    ensures Allocated(h2, v)
    ensures Apply(m, h1, v) == Apply(m, h2, v)
    decreases m, 0
  {
    if m.TableM? && v.Ref? && h1[v.addr].ArrayObj? {
      assert h2[v.addr] == h1[v.addr];
      assert ObjOk(h1, h1[v.addr]);
      assert ObjOk(h2, h2[v.addr]);
      RowsReadNoProperties(m.row, h1, h2, h1[v.addr].items);
    }
  }

  lemma {:induction false} RowsReadNoProperties(row: Marshaler, h1: Heap, h2: Heap, items: seq<HostValue>)
    requires HeapOk(h1) && HeapOk(h2) && SameExceptProperties(h1, h2)
    requires forall i | 0 <= i < |items| :: Allocated(h1, items[i])
    ensures forall i | 0 <= i < |items| :: Allocated(h2, items[i])
    ensures Rows(row, h1, items) == Rows(row, h2, items)
    decreases row, 1, |items|
  {
    if items != [] {
      MarshalReadsNoProperties(row, h1, h2, items[0]);
      RowsReadNoProperties(row, h1, h2, items[1..]);
    }
  }
}
