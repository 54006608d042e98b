/**
 * The parts of the formula type and value taxonomy the marshalers need:
 * extending a record type, turning a record type into a table type, the
 * `Type` a marshaler declares, and which values inhabit which types.
 */
module FormulaTypes {
  import opened Model

  /** `RecordType.Add(name, type)`: a record type with one more field, at the end. */
  function AddField(rt: FxType, name: string, ty: FxType): FxType
    requires rt.Record?
  {
    Record(rt.fields + [Field(name, ty)])
  }

  /** `RecordType.ToTable()`. */
  function ToTable(rt: FxType): (r: FxType)
    requires rt.Record?
  {
    Table(rt)
  }

  function FieldNames(fields: seq<Field>): (names: seq<string>)
    ensures |names| == |fields|
    ensures forall i | 0 <= i < |fields| :: names[i] == fields[i].name
  {
    if fields == [] then [] else FieldNames(fields[..|fields| - 1]) + [fields[|fields| - 1].name]
  }

  /** Appending a field appends its name, and nothing else changes among
      the names already there. */
  lemma AppendedFieldNames(fields: seq<Field>, f: Field)
    ensures FieldNames(fields + [f]) == FieldNames(fields) + [f.name]
  {
    assert (fields + [f])[..|fields|] == fields;
  }

  /** `ITypeMarshaler.Type`: the type a marshaler was built with; the
      identity marshaler's is null and `Empty`'s is Blank. */
  function TypeOf(m: Marshaler): FxType {
    match m
    case PrimitiveM(ty) => ty
    case ObjectM(ty, _) => ty
    case TableM(ty, _) => ty
    case IdentityM => NullType
    case EmptyM => Blank
  }

  /** A `RecordValue` at run time (the target of the `(RecordValue)` cast). */
  predicate IsRecordValue(v: FxValue) {
    v.ObjRecordV? || v.EmptyRecordV?
  }

  /** Value `v` is a value of formula type `t`. */
  predicate Conforms(v: FxValue, t: FxType) {
    match v
    case BlankV => t == Blank
    case NumberV(_) => t == Number
    case StringV(_) => t == Text
    case NullStringV => t == Text
    case ObjRecordV(ty, _, _) => t == ty && ty.Record?
    case EmptyRecordV => t == Record([])
    case LazyTableV(ty, _, _, rows) =>
      t == ty && ty.Table? && forall i | 0 <= i < |rows| :: Conforms(rows[i], ty.row)
    case ErrorV => false
  }
}
