# Power Fx object marshaling, modelled in Dafny

This project models the engine that turns .NET objects into Power Fx values.
It states the engine's properties as contracts and lemmas.

- A **type marshaler** converts the values of one host type. Once cached, it
  is reused for every instance: later lookups never replace an entry that is
  already there. Within a single top-level `New`, however, the guarded
  revision can build the same type twice and overwrite its own first entry
  (`Scenarios.NodeResolvesTwice`).
- The **marshaler cache** (`TypeMarshallerCache`) maps each exact host type to its marshaler.
- Marshalers come from an ordered list of **providers**:
  - the primitive provider (`int`, `double`, `string`);
  - the identity provider (values that already are formula values);
  - the object provider (classes become lazy records);
  - the table provider (arrays become tables of records).
- A class instance becomes an `ObjectRecordValue`. This record holds the
  original reference and reads a property only when that field is asked for.

Two revisions of the cache are modelled:

- **Guarded revision** (the `Marshal/` folder and `Values/ObjectRecordValue.cs`):
  modules `MarshalCache`, `Marshalers`, `ObjectRecord`, `CacheFacts`.
  - A top-level `New` starts an inner resolver with a depth counter of 3.
  - Every nested `New` lowers that one counter first, sibling properties included.
  - Once the counter is below zero, the call answers the `Empty` marshaler.
    `Empty` declares Blank, yields the empty record, and is never cached.
- **Earlier revision** (`TypeMarshaller.cs` and `Values/Class1.cs`): module `RevisionA`.
  - It has no counter and no table provider.
  - Resolution terminates only when no class reaches itself through its
    properties. This is stated with a rank on class names, which the
    resolver takes as a ghost argument.
  - A copy of the resolver with a bound on nesting (`RevisionA.ResolveF`)
    shows what happens without a rank: a class with a property of its own
    type is never built, however deep the bound.

How the model stands in for the runtime:

- Reflection is an explicit class table: class name to properties in enumeration order.
- Objects live in a heap from addresses to instances and arrays.
- A null `FormulaValue` is `None` in `Marshalers.Apply`'s result.
- A thrown exception is an `Err` of `Model.Error`.
- The record marshaler's closures are data: a `Getter` holds the property and
  the nested marshaler. Calling the closure is `Marshalers.TryGetField`.
- Laziness is stated in two ways:
  - frame lemmas: marshaling's result does not depend on any property value;
  - a field read marshals the value in the heap at the time of the read.

The guarded revision's provider files call a two-argument
`cache.New(type, maxDepth)`, which `TypeMarshallerCache.cs` does not define.
The model reads that call as the inner resolver's `New`, which lowers the
counter the resolver shares.

So the depth limit is **not** per path, where each nested level would get one
less than its parent. It is one budget per top-level call, spent in visiting
order. The model follows the code:

- `Scenarios.Test2TruncatedByCounter`: `x.two` is already a record of empty records.
- `Scenarios.Test2NavigatesWithoutCounter`: the earlier revision reaches `x.two.three.data3` = "three".
- `Scenarios.NodeCycleTruncated`: in a three-node cycle, `node1.Next.Data` is the empty record, not 20.

Files:

- `model.dfy`: the data model.
- `reflection.dfy`, `formula_types.dfy`: runtime services and formula types.
- `primitive.dfy`, `identity.dfy`, `marshalers.dfy`, `object_record.dfy`: the marshalers.
- `cache.dfy`: the guarded cache and its providers.
- `cache_facts.dfy`: resolver-wide properties.
- `revision_a.dfy`: the earlier revision.
- `scenarios.dfy`: worked examples, checked by the verifier, on the unit tests' objects.

## Model

Source cells are paths from the repository root.

| member | source | states |
|---|---|---|
| PrimitiveProvider.New | src/libraries/Microsoft.PowerFx.Core/Public/Marshal/PrimitiveMarshalerProvider.cs:14-32 | A marshaler exists exactly for `int`, `double` and `string`. Its Type is Number for the first two and Text for `string`. Every other type is declined. |
| PrimitiveProvider.Marshal | src/libraries/Microsoft.PowerFx.Core/Public/Marshal/PrimitiveMarshalerProvider.cs:44-64 | Under Number: an `int` gives the equal number, a `double` the same number, null a null-reference error, anything else an invalid cast. Under String: a string gives text, null the null string, anything else an invalid cast. Under any other Type, null is a null-reference error (the type test calls `GetType()` on it) and any other value the "unsupported" error. |
| PrimitiveProvider.PairedMarshalConforms | src/libraries/Microsoft.PowerFx.Core/Public/Marshal/PrimitiveMarshalerProvider.cs:23-64 | A primitive marshaler applied to a value of its own host type never fails. Its value has the marshaler's declared Type. |
| IdentityProvider.New | src/libraries/Microsoft.PowerFx.Core/Public/Marshal/IdentityMarshalerProvider.cs:15-26 | Accepts exactly the FormulaValue types. Its marshaler declares a null Type. |
| IdentityProvider.Marshal | src/libraries/Microsoft.PowerFx.Core/Public/Marshal/IdentityMarshalerProvider.cs:32-35 | The cast passes a formula value through unchanged: the very value comes back. Null stays null. Any other value is an invalid cast. |
| Marshalers.NewObjectMarshaler | src/libraries/Microsoft.PowerFx.Core/Public/Marshal/ObjectMarshalerProvider.cs:82-91 | Succeeds exactly for a record type and keeps type and accessor table. Otherwise it is an argument error. |
| Marshalers.Apply | src/libraries/Microsoft.PowerFx.Core/Public/Marshal/TableMarshalerProvider.cs:51-87 | Per marshaler kind. A primitive marshaler gives its value or its error; the identity marshaler gives the cast. A record marshaler always succeeds and wraps the very source and its accessor table; `Empty` gives the empty record. A table marshaler given null is a null-reference error, given a non-array an invalid cast; given an array it succeeds iff every element makes a record row, its rows are then exactly those rows in element order, and otherwise the first failing row's error propagates. A non-null value never yields null. |
| Marshalers.Rows | src/libraries/Microsoft.PowerFx.Core/Public/Marshal/TableMarshalerProvider.cs:73-87 | Row construction succeeds iff every element marshals to a record value. Row `i` is then exactly the row marshaler's result for element `i`. Otherwise there is a first element whose row is unusable, all before it are usable, and the error is that element's: the row marshaler's own error, a null reference for a null row, or the failed cast of a non-record. |
| Marshalers.TryGetField | src/libraries/Microsoft.PowerFx.Core/Public/Marshal/ObjectMarshalerProvider.cs:101-110 | An unmapped name gives null. A mapped name reads its property now and marshals the value with the field's nested marshaler. A failing read propagates. |
| Marshalers.PairedMarshalSucceeds | src/libraries/Microsoft.PowerFx.Core/Public/Marshal/ITypeMashalerProvider.cs:26-30 | Take a marshaler of the kind built for a type, and a value of that type in a well-typed heap. Applying it never fails, except a table marshaler given a null array. |
| Marshalers.MarshalConformsToType | src/libraries/Microsoft.PowerFx.Core/Public/Marshal/ITypeMashalerProvider.cs:24-30 | Every value such a marshaler produces has the marshaler's declared Type. Table rows have the row type. The identity marshaler declares none. |
| Marshalers.EmptyTypeDisagreesWithValue | src/libraries/Microsoft.PowerFx.Core/Public/Marshal/TypeMarshallerCache.cs:98-106 | `Empty` declares Blank but produces the empty record, which is not Blank. |
| Marshalers.MarshalReadsNoProperties | src/libraries/Microsoft.PowerFx.Core/Public/Marshal/ObjectMarshalerProvider.cs:93-97 | Marshaling is lazy. Two heaps that differ only in instance property values give the same result. |
| FormulaTypes.AppendedFieldNames | src/libraries/Microsoft.PowerFx.Core/Public/Marshal/ObjectMarshalerProvider.cs:64 | Adding a field to a record type appends its name after the existing field names, which keep their order. |
| Reflection.RuntimeType | src/libraries/Microsoft.PowerFx.Core/Public/Marshal/TypeMarshallerCache.cs:94 | `GetType()` of a non-null value: the class of an instance, the array type of an array, and the value inhabits that type. |
| Reflection.ReadProperty | src/libraries/Microsoft.PowerFx.Core/Public/Marshal/ObjectMarshalerProvider.cs:60 | `PropertyInfo.GetValue` succeeds exactly on an instance carrying the property and gives its current value; any other target is a target error. |
| ObjectRecord.GetField | src/libraries/Microsoft.PowerFx.Core/Public/Values/ObjectRecordValue.cs:29-41 | An unmapped name, or a getter that yields null, gives the error value. A non-null getter result is returned as is. A failing property read propagates. |
| ObjectRecord.ReadSeesCurrentValue | src/libraries/Microsoft.PowerFx.Core/Public/Marshal/ObjectMarshalerProvider.cs:58-62 | After the host changes a property, the next field read marshals the new value. Nothing is memoised. |
| ObjectRecord.ReadsOnlyItsProperty | src/libraries/Microsoft.PowerFx.Core/Public/Marshal/ObjectMarshalerProvider.cs:101-107 | A field read depends on the heap only through the one property it reads. |
| ObjectRecord.PairedGetFieldSucceeds | src/libraries/Microsoft.PowerFx.Core/Public/Values/ObjectRecordValue.cs:29-41 | For a record from a marshaler bound to its class, over a well-typed heap: the source is the instance; an unmapped name is the error value; the only failure is a null array-valued property. |
| MarshalCache.Resolve | src/libraries/Microsoft.PowerFx.Core/Public/Marshal/TypeMarshallerCache.cs:57-85 | A nested `New` lowers the shared counter by at least one. Once the counter is spent it answers `Empty` and leaves the cache alone. With counter left, a cached type is answered from the cache without asking any provider. Entries already cached are kept unchanged, and no more entries are added than the counter it spends. Any non-`Empty` answer is cached under the exact type. The cache stays sound. With a complete provider list it always succeeds. |
| MarshalCache.TryProviders | src/libraries/Microsoft.PowerFx.Core/Public/Marshal/TypeMarshallerCache.cs:72-84 | The answer is exactly what the first provider that accepts the type gives: its marshaler, stored under the type, or its failure. Later providers are not consulted. If none accepts, the call fails naming the type and changes nothing. Entries for other types are kept unchanged. |
| MarshalCache.ProviderNew | src/libraries/Microsoft.PowerFx.Core/Public/Marshal/ITypeMashalerProvider.cs:13-19 | A provider declines, returning null, exactly when it does not handle the type. A built marshaler is of the provider's kind and bound to the type. Entries already cached are kept unchanged. |
| MarshalCache.ObjectProviderNew | src/libraries/Microsoft.PowerFx.Core/Public/Marshal/ObjectMarshalerProvider.cs:29-68 | Declines exactly the non-class types. For a class it builds a record marshaler bound to the class. Entries already cached are kept unchanged. |
| MarshalCache.FieldsLoop | src/libraries/Microsoft.PowerFx.Core/Public/Marshal/ObjectMarshalerProvider.cs:41-65 | The property loop builds a record marshaler. Its getters read readable properties of the class with marshalers for their types. Entries already cached are kept unchanged; the loop only adds new ones. |
| MarshalCache.FieldsLoopNames | src/libraries/Microsoft.PowerFx.Core/Public/Marshal/ObjectMarshalerProvider.cs:41-64 | The record type's field names are the retained mapped names, in property order. |
| MarshalCache.FieldsLoopKeys | src/libraries/Microsoft.PowerFx.Core/Public/Marshal/ObjectMarshalerProvider.cs:41-62 | The accessor table's names are exactly the retained mapped names. |
| MarshalCache.FieldsLoopGetters | src/libraries/Microsoft.PowerFx.Core/Public/Marshal/ObjectMarshalerProvider.cs:54-64 | Each getter sits under its property's mapped name. Its field is in the record type with the nested marshaler's Type. |
| MarshalCache.ObjectProviderFields | src/libraries/Microsoft.PowerFx.Core/Public/Marshal/ObjectMarshalerProvider.cs:37-67 | A record marshaler built for a class has: field names equal to the retained names in order; accessor names equal to those names; each getter under its mapped name; each field typed by its nested marshaler; and, when several properties map to one name, the getter of the last of them. |
| MarshalCache.RetainedNamesExactly | src/libraries/Microsoft.PowerFx.Core/Public/Marshal/ObjectMarshalerProvider.cs:43-52 | A name is retained iff some readable property maps to it. Renamed properties appear under the new name. Properties mapped to null and unreadable ones do not appear. |
| MarshalCache.DefaultMapperKeepsReadable | src/libraries/Microsoft.PowerFx.Core/Public/Marshal/ObjectMarshalerProvider.cs:27 | Under the default mapper, which names a property by its own name, every readable property becomes a field under its own name and nothing else does. |
| MarshalCache.LastMappedIsLast | src/libraries/Microsoft.PowerFx.Core/Public/Marshal/ObjectMarshalerProvider.cs:43-58 | For each retained name there is a last readable property mapped to it, and only for retained names. No later property is readable and mapped to the same name. |
| MarshalCache.FieldsLoopLastWins | src/libraries/Microsoft.PowerFx.Core/Public/Marshal/ObjectMarshalerProvider.cs:41-65 | The dictionary write keeps the later getter: the getter under each name belongs to the last readable property mapped to that name, and names no remaining property maps to keep the getter they had. |
| MarshalCache.TableProviderNew | src/libraries/Microsoft.PowerFx.Core/Public/Marshal/TableMarshalerProvider.cs:22-43 | Declines exactly the non-array types. Otherwise resolves the element type with the same counter and passes on its failure. It builds exactly when the element marshaler's Type is a record; the row marshaler is then the element marshaler and the Type is the table of that record. A null element Type (the identity marshaler) fails on `ToTable` with a null reference; any other non-record Type (a scalar, or Blank from `Empty`) fails the cast. Entries already cached are kept unchanged. |
| MarshalCache.New | src/libraries/Microsoft.PowerFx.Core/Public/Marshal/TypeMarshallerCache.cs:44-85 | A cached type is answered from the cache with the cache unchanged. A top-level call never answers `Empty` over a sound cache. Entries already cached are kept unchanged, so a marshaler once stored is reused by every later call. It stores its answer under the type and adds at most three entries. With a complete provider list it always succeeds. |
| MarshalCache.Marshal | src/libraries/Microsoft.PowerFx.Core/Public/Marshal/TypeMarshallerCache.cs:87-96 | Null is Blank and touches nothing. Otherwise it resolves the runtime type, propagating a lookup failure, and applies the resolved marshaler; a failure of the marshaler propagates as the call's error. |
| MarshalCache.DefaultProviders | src/libraries/Microsoft.PowerFx.Core/Public/Marshal/TypeMarshallerCache.cs:28-34 | The default list, primitives then objects, is complete. `string`, although a class, goes to the primitive provider first. |
| CacheFacts.FirstMatchWins | src/libraries/Microsoft.PowerFx.Core/Public/Marshal/TypeMarshallerCache.cs:25-34 | The provider order decides. On a miss, `New` gives exactly what the first accepting provider builds with the counter lowered once, stored under the type, or that provider's failure, whatever later providers would do. With two object providers, the first one's mapper is the one used. |
| CacheFacts.NoProviderFails | src/libraries/Microsoft.PowerFx.Core/Public/Marshal/TypeMarshallerCache.cs:83-84 | When every provider declines, `New` fails naming the type and the cache is unchanged. |
| CacheFacts.ArrayPrecedence | src/libraries/Microsoft.PowerFx.Core/Public/Marshal/TableMarshalerProvider.cs:22-27 | Arrays are classes, so both providers accept them. When the lookup builds, the table provider listed first gives a table marshaler and the object provider listed first gives a record marshaler. With the table provider first the lookup can also fail (`CacheFacts.ScalarArrayFails`, `CacheFacts.FormulaValueArrayFails`). |
| CacheFacts.ScalarArrayFails | src/libraries/Microsoft.PowerFx.Core/Public/Marshal/TableMarshalerProvider.cs:33-35 | An array of `int`, `double` or `string` cannot become a table: the element marshaler is built and cached, and the cast of its Number or Text Type to a record fails. |
| CacheFacts.FormulaValueArrayFails | src/libraries/Microsoft.PowerFx.Core/Public/Marshal/TableMarshalerProvider.cs:33-36 | An array of formula values cannot become a table: the identity element marshaler declares no Type, and `ToTable` on it is a null reference. |
| CacheFacts.MarshalFailsOnlyInLookup | src/libraries/Microsoft.PowerFx.Core/Public/Marshal/TypeMarshallerCache.cs:87-96 | With a sound cache and a well-typed heap, `Marshal` fails only when the lookup fails, with that error. Applying the marshaler never fails. |
| CacheFacts.CompleteMarshalNeverFails | src/libraries/Microsoft.PowerFx.Core/Public/Marshal/TypeMarshallerCache.cs:87-96 | With a complete provider list, marshaling a well-typed value never fails and keeps the cache sound. |
| CacheFacts.MarshalInstanceKeepsReference | src/tests/Microsoft.PowerFx.Interpreter.Tests/MarshalTests.cs:97-100 | A class instance marshals to a record whose `Source` is the same reference, typed by its class's record marshaler. |
| RevisionA.ResolveA | src/libraries/Microsoft.PowerFx.Core/Public/TypeMarshaller.cs:49-69 | Over a ranked class table: a hit answers from the cache unchanged, and existing entries are never overwritten. New entries are no higher than the requested type. Failures name a type. No marshaler contains `Empty`. With primitives and objects in the list it always succeeds. |
| RevisionA.DefaultProvidersA | src/libraries/Microsoft.PowerFx.Core/Public/TypeMarshaller.cs:41-47 | The default list of this revision, primitives then objects, is complete. Every type goes to the primitive provider if it handles it, and to the record provider otherwise. |
| RevisionA.TryProvidersA | src/libraries/Microsoft.PowerFx.Core/Public/TypeMarshaller.cs:56-68 | The answer is exactly what the first provider that accepts the type gives: its marshaler, stored under the type, or its failure; nothing already cached is overwritten. If no remaining provider accepts, the call fails naming the type with the cache unchanged. With primitives and objects in the list, an accepting provider always builds. |
| RevisionA.ProviderNewA | src/libraries/Microsoft.PowerFx.Core/Public/TypeMarshaller.cs:73-201 | Declines exactly the types the provider does not handle. Nested resolutions only add lower types. |
| RevisionA.FieldsLoopA | src/libraries/Microsoft.PowerFx.Core/Public/TypeMarshaller.cs:165-200 | The property loop without a budget. Every getter has a proper marshaler for its property's type. The loop only adds lower types to the cache. |
| RevisionA.FieldsLoopNamesA | src/libraries/Microsoft.PowerFx.Core/Public/TypeMarshaller.cs:170-193 | This revision's record type has the retained mapped names as its field names, in property order. |
| RevisionA.FieldsLoopKeysA | src/libraries/Microsoft.PowerFx.Core/Public/TypeMarshaller.cs:170-187 | This revision's accessor table has exactly the retained mapped names. |
| RevisionA.FieldsLoopGettersA | src/libraries/Microsoft.PowerFx.Core/Public/TypeMarshaller.cs:183-193 | Each getter sits under its property's mapped name, and its field is in the record type with the nested marshaler's Type. |
| RevisionA.FieldsLoopLastWinsA | src/libraries/Microsoft.PowerFx.Core/Public/TypeMarshaller.cs:176-187 | When several properties map to one name, the getter kept is the last one's. |
| RevisionA.ObjectProviderFieldsA | src/libraries/Microsoft.PowerFx.Core/Public/TypeMarshaller.cs:154-201 | This revision's record provider on a class omits unreadable and null-named properties and renames the others: the field names are the retained names in order, the accessor names the same, each getter under its mapped name and typed by its nested marshaler, the last property winning a shared name. |
| RevisionA.ResolveF | src/libraries/Microsoft.PowerFx.Core/Public/TypeMarshaller.cs:49-69 | The same resolver with at most `fuel` nested resolutions; it answers nothing when they run out. A hit is answered from the cache, and entries are only added. |
| RevisionA.TryF | src/libraries/Microsoft.PowerFx.Core/Public/TypeMarshaller.cs:56-68 | The bounded provider loop: when no provider accepts, it fails naming the type; a built marshaler is stored under the type. |
| RevisionA.ProviderF | src/libraries/Microsoft.PowerFx.Core/Public/TypeMarshaller.cs:73-201 | A bounded provider call declines exactly the types the provider does not handle, and builds a marshaler of its kind. |
| RevisionA.LoopF | src/libraries/Microsoft.PowerFx.Core/Public/TypeMarshaller.cs:170-193 | The bounded property loop: property types are resolved before the class's own marshaler exists; a built result is a record marshaler. |
| RevisionA.ResolveFAgrees | src/libraries/Microsoft.PowerFx.Core/Public/TypeMarshaller.cs:49-69 | On a ranked class table, with more fuel than the type's height, the bounded resolver never runs out and gives exactly `ResolveA`'s answer. |
| RevisionA.SelfLoopNeverBuilds | src/libraries/Microsoft.PowerFx.Core/Public/TypeMarshaller.cs:170-193 | The property loop of a class with a readable, kept property of its own type never finishes with a marshaler: that property's resolution needs the class's marshaler, which is not cached yet. |
| RevisionA.SelfReferenceNeverBuilds | src/libraries/Microsoft.PowerFx.Core/Public/TypeMarshaller.cs:51-64 | A class with a readable, kept property of its own type is never built, whatever the fuel: the resolver runs out or fails, and the class never enters the cache. |
| RevisionA.GetFieldA | src/libraries/Microsoft.PowerFx.Core/Public/Values/Class1.cs:30-42 | An unmapped name gives the error value. A mapped name gives the getter's result as is, null included. |
| RevisionA.GetFieldRevisionsAgreeExceptNull | src/libraries/Microsoft.PowerFx.Core/Public/Values/Class1.cs:30-42 | The two revisions' field reads agree except where the getter yields null. There the earlier one passes null on and the later one answers the error value. |
| Scenarios.PrimitiveInt | src/tests/Microsoft.PowerFx.Interpreter.Tests/MarshalTests.cs:31-40 | The `int` 5 marshals to the number 5.0. |
| Scenarios.Test1Renaming | src/tests/Microsoft.PowerFx.Interpreter.Tests/MarshalTests.cs:72-104 | With the renaming hook, `LengthProp` reads 12.0 and `FilenameProp` reads "foo.txt". The record's source is the same object. `_SkipProp` is not a field and reads as the error value. |
| Scenarios.Test1RenamingA | src/tests/Microsoft.PowerFx.Interpreter.Tests/MarshalTests.cs:83-104 | The same hook set as this revision's `_mapper`: the record provider builds the fields `FilenameProp` and `LengthProp`, in that order, reading `Filename` and `Length`, and nothing for `_Skip`. |
| Scenarios.Test2TruncatedByCounter | src/libraries/Microsoft.PowerFx.Core/Public/Marshal/TypeMarshallerCache.cs:46-64 | In the guarded revision, `data1` and `two` spend the shared counter. `x.two.three` and `x.two.data2` are the empty record. |
| Scenarios.Test2NavigatesWithoutCounter | src/tests/Microsoft.PowerFx.Interpreter.Tests/MarshalTests.cs:42-70 | In the earlier revision, `x.two.three.data3` is "three". |
| Scenarios.NodeResolvesTwice | src/libraries/Microsoft.PowerFx.Core/Public/Marshal/TypeMarshallerCache.cs:66-80 | A self-referential class is built twice in one `New`. The inner, truncated marshaler is cached first and then overwritten by the outer one. |
| Scenarios.NodeCycleTruncated | src/libraries/Microsoft.PowerFx.Core/Public/Marshal/TypeMarshallerCache.cs:57-63 | In a three-node cycle, `node1.Data` is 10 but `node1.Next.Data` is the empty record. |
| Scenarios.NodeNeverResolves | src/libraries/Microsoft.PowerFx.Core/Public/TypeMarshaller.cs:49-69 | The earlier revision cannot marshal the self-referential node class: whatever the fuel, resolving `Node` resolves `Data` and then `Next`, which is `Node` again, until the fuel runs out. |
| Scenarios.NullFieldDiffers | src/libraries/Microsoft.PowerFx.Core/Public/Values/ObjectRecordValue.cs:29-41 | A FormulaValue-typed property holding null reads as null in the earlier revision and as the error value in the guarded one. |

Five definitions carry no contract of their own, because their whole meaning is their definition:
- `FormulaTypes.TypeOf`: `ITypeMarshaler.Type`, ITypeMashalerProvider.cs:26.
- `FormulaTypes.AddField`: `RecordType.Add`, ObjectMarshalerProvider.cs:64.
- `FormulaTypes.ToTable`: `ToTable`, TableMarshalerProvider.cs:36.
- `ObjectRecord.Source`: the `Source` getter, ObjectRecordValue.cs:18.
- `Scenarios.Hook`: the test's hook, MarshalTests.cs:27-29.

The rows that state their behaviour are `Marshalers.MarshalConformsToType`, `FormulaTypes.AppendedFieldNames` and `MarshalCache.FieldsLoopNames`, `MarshalCache.TableProviderNew`, `CacheFacts.MarshalInstanceKeepsReference`, and `Scenarios.Test1Renaming`.

## Left out

- Host types are narrowed to `int`, `double`, `string`, user classes, arrays and `FormulaValue`. There is no `bool`, `long`, `char`, `decimal`, `DateTime` or other struct, and `string`, arrays and `FormulaValue` types are given no properties. In .NET the object provider would enumerate those too, e.g. an array's `LongLength` (a `long`) or `IsSynchronized` (a `bool`), and both default providers decline such property types, so `New` would throw "Can't marshal".
- MarshalCache.DefaultProviders: "complete" means complete over the modelled host types only. A property of a type outside them makes the source throw where the model succeeds.
- CacheFacts.CompleteMarshalNeverFails: holds only over the modelled host types. Under the default providers, a class with a `bool` property, or any array, fails in the source.
- MarshalCache.Resolve: "always succeeds with a complete provider list" holds only over the modelled host types.
- MarshalCache.New: "always succeeds with a complete provider list" holds only over the modelled host types.
- RevisionA.ResolveA: "always succeeds with primitives and objects in the list" holds only over the modelled host types.
- RevisionA.DefaultProvidersA: "complete" means complete over the modelled host types only.
- Property getters are total reads of the stored value. Computed getters, side effects and getters that throw are not modelled.
- `ObjectRecordValue.Fields` throws "not implemented" in both revisions and is not modelled.
- `UntypedObjectValue.cs` is not part of this model.
- The expression engine (`RecalcEngine`, `Eval`, `Check`) is not modelled. Test expressions are written as chains of `GetField`.
- Thread safety of the shared dictionary is left out, because the model is sequential.
- Numbers are reals. NaN, infinities and `double` rounding are left out.
- `RecordType.Add` is modelled as appending a field. If two properties map to the same name, the type keeps both fields and the accessor table keeps the later getter.
- `ObjectRecordValue.Source` has a public setter. The model's record value holds its source immutably, and the modelled code sets it only when the record is created (TypeMarshaller.cs:215 in the earlier revision).
- `IRContext`, `DValue` and the `ErrorValue`'s context are not modelled.
- Marshalers.Rows: a row marshaler that yields null stops with a null-reference error. The source's `(RecordValue)` cast of null would store a null row. No table marshaler the resolver builds can yield a null row.
- MarshalCache.Marshal: an exception is returned as an `Err` next to the cache as it stood when the exception was thrown. Whatever the caller does with the exception is out of scope.
- MarshalCache.New: says nothing about which types the inner calls add beyond the count bound.
- RevisionA.ResolveA: requires a rank, which only acyclic class tables have. On a cyclic table the source recurses until the stack overflows; `RevisionA.ResolveF` follows it there with a bound on nesting instead (see `RevisionA.SelfReferenceNeverBuilds`).
