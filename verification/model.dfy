/**
 * Data model of the .NET-object to Power Fx value marshaling engine.
 *
 * Host (.NET) side: host types, the properties a class exposes (an explicit
 * class table replaces reflection), host values and a heap of objects.
 * Formula (Power Fx) side: formula types, formula values and the marshalers
 * that convert one into the other. The two sides refer to each other (a lazy
 * record value holds its host source; a host value may already be a formula
 * value), so they are declared together.
 */
module Model {

  /** A 32-bit .NET `int`. */
  newtype int32 = x: int | -0x8000_0000 <= x < 0x8000_0000

  datatype Option<+T> = None | Some(value: T)

  /** The exact runtime type of a host value; the cache matches on it exactly. */
  datatype HostType =
    | TInt
    | TDouble
    | TString
    | TClass(name: string)
    | TArray(elem: HostType)
    | TFormulaValue          // any type assignable to FormulaValue

  /** A public instance property, as reflection would describe it. */
  datatype Prop = Prop(name: string, ty: HostType, canRead: bool)

  /** The properties of every user class, in enumeration order. */
  type ClassTable = map<string, seq<Prop>>

  type Addr = nat

  /** A host value: a scalar, the null reference, a reference into the heap,
      or an object that already is a formula value. */
  datatype HostValue =
    | Null
    | IntV(i: int32)
    | DoubleV(d: real)
    | StrV(s: string)
    | Ref(addr: Addr)
    | FxV(fx: FxValue)

  /** A heap object: an instance of a user class (property name to current
      value) or an array with its element type. */
  datatype HeapObj =
    | Instance(cls: string, props: map<string, HostValue>)
    | ArrayObj(elem: HostType, items: seq<HostValue>)

  type Heap = map<Addr, HeapObj>

  /** Formula types. `NullType` stands for a null `FormulaType` reference. */
  datatype FxType =
    | Number
    | Text
    | Blank
    | Record(fields: seq<Field>)
    | Table(row: FxType)
    | NullType

  datatype Field = Field(name: string, ty: FxType)

  /** A type marshaler, bound to one host type. The record marshaler keeps,
      per formula field, the property to read and the marshaler for that
      property's type instead of a closure. */
  datatype Marshaler =
    | PrimitiveM(ty: FxType)
    | ObjectM(ty: FxType, mapping: map<string, Getter>)
    | TableM(ty: FxType, row: Marshaler)
    | IdentityM
    | EmptyM

  datatype Getter = Getter(prop: Prop, nested: Marshaler)

  /** Formula values. `ObjRecordV` is the lazy record over a host source;
      `LazyTableV` holds its rows, built when the table was marshaled. */
  datatype FxValue =
    | BlankV
    | NumberV(n: real)
    | StringV(s: string)
    | NullStringV                        // a String value wrapping a null string
    | ObjRecordV(ty: FxType, source: HostValue, mapping: map<string, Getter>)
    | EmptyRecordV
    | LazyTableV(ty: FxType, source: HostValue, rowMarshaler: Marshaler, rows: seq<FxValue>)
    | ErrorV

  /** The exceptions the source throws. */
  datatype Error =
    | CantMarshal(ty: HostType)          // no provider accepted the type
    | InvalidCast                        // a cast to the wrong runtime type
    | NullReference                      // a member used on a null reference
    | TargetError                        // PropertyInfo.GetValue on a null or foreign target
    | ArgumentError                      // ObjectMarshaler given a non-record type
    | Unsupported                        // primitive marshaler of an unknown kind

  datatype Result<+T> = Ok(value: T) | Err(error: Error)

  /** The outcome of asking a provider (or the resolver) for a marshaler,
      together with the resolver state after the attempt. State persists on
      failure too: cache entries written before an exception remain. */
  datatype Step<+S> =
    | Declined(st: S)
    | Built(m: Marshaler, st: S)
    | Failed(err: Error, st: S)
}
