/**
 * Worked examples, checked by the verifier, of the marshaling engine on the objects of the unit tests
 * (MarshalTests.cs), and on a self-referential class, showing where the
 * shared depth counter of the guarded revision cuts nesting short.
 */
module Scenarios {
  import opened Model
  import opened Reflection
  import opened FormulaTypes
  import opened Marshalers
  import opened ObjectRecord
  import opened MarshalCache
  import opened CacheFacts
  import PrimitiveProvider
  import RevisionA

  // ---------------------------------------------------------------------
  // Primitive: an int marshals to the equal number.

  lemma PrimitiveInt()
    ensures New(Config(map[], DefaultProviders()), map[], TInt).Built?
    ensures var n := New(Config(map[], DefaultProviders()), map[], TInt);
            Apply(n.m, map[], IntV(5)) == Ok(Some(NumberV(5.0)))
  {
    var cfg := Config(map[], DefaultProviders());
    assert TryProviders(cfg, State(map[], 2), TInt, 0, 2)
        == Built(PrimitiveM(Number), State(map[TInt := PrimitiveM(Number)], 2));
  }

  // ---------------------------------------------------------------------
  // Test1: a renaming hook that skips `_`-prefixed properties.

  /** The test's hook: skip names starting with `_`, else append "Prop". */
  function Hook(p: Prop): Option<string> {
    if |p.name| > 0 && p.name[0] == '_' then None else Some(p.name + "Prop")
  }

  const filename := Prop("Filename", TString, true)
  const length := Prop("Length", TDouble, true)
  const skip := Prop("_Skip", TString, true)

  function FileClasses(): ClassTable {
    map["File" := [filename, length, skip]]
  }

  function FileHeap(): Heap {
    map[0 := Instance("File", map["Filename" := StrV("foo.txt"), "Length" := DoubleV(12.0), "_Skip" := StrV("skip me!")])]
  }

  function FileMarshaler(): Marshaler {
    ObjectM(Record([Field("FilenameProp", Text), Field("LengthProp", Number)]),
            map["FilenameProp" := Getter(filename, PrimitiveM(Text)), "LengthProp" := Getter(length, PrimitiveM(Number))])
  }

  function FileConfig(): Config {
    Config(FileClasses(), [PrimitiveP, ObjectP(Hook)])
  }

  lemma HookNames()
    ensures Hook(filename) == Some("FilenameProp")
    ensures Hook(length) == Some("LengthProp")
    ensures Hook(skip) == None
  {
    assert filename.name[0] == 'F' && "Filename" + "Prop" == "FilenameProp";
    assert length.name[0] == 'L' && "Length" + "Prop" == "LengthProp";
  }

  /** After both properties: the skipped `_Skip` leaves the loop unchanged. */
  lemma FileLoopFrom2()
    ensures FieldsLoop(FileConfig(), Hook, State(map[TString := PrimitiveM(Text), TDouble := PrimitiveM(Number)], 0),
                       TClass("File"), 2,
                       map["FilenameProp" := Getter(filename, PrimitiveM(Text)), "LengthProp" := Getter(length, PrimitiveM(Number))],
                       Record([Field("FilenameProp", Text), Field("LengthProp", Number)]), 2)
            == Built(FileMarshaler(), State(map[TString := PrimitiveM(Text), TDouble := PrimitiveM(Number)], 0))
  {
    HookNames();
    assert Properties(FileConfig().classes, TClass("File"))[2] == skip;
  }

  /** `Length` resolves `double` with the counter at 1. */
  lemma FileLoopFrom1()
    ensures FieldsLoop(FileConfig(), Hook, State(map[TString := PrimitiveM(Text)], 1),
                       TClass("File"), 1,
                       map["FilenameProp" := Getter(filename, PrimitiveM(Text))],
                       Record([Field("FilenameProp", Text)]), 2)
            == Built(FileMarshaler(), State(map[TString := PrimitiveM(Text), TDouble := PrimitiveM(Number)], 0))
  {
    HookNames();
    var cfg := FileConfig();
    var c1 := map[TString := PrimitiveM(Text)];
    var c2 := map[TString := PrimitiveM(Text), TDouble := PrimitiveM(Number)];
    assert Properties(cfg.classes, TClass("File"))[1] == length;
    assert TryProviders(cfg, State(c1, 0), TDouble, 0, 0) == Built(PrimitiveM(Number), State(c2, 0));
    assert Resolve(cfg, State(c1, 1), TDouble) == Built(PrimitiveM(Number), State(c2, 0));
    SecondField(Field("FilenameProp", Text), "LengthProp", Number);
    FileLoopFrom2();
  }

  /** `Filename` resolves `string` with the counter at 2. */
  lemma FileLoopFrom0()
    ensures FieldsLoop(FileConfig(), Hook, State(map[], 2), TClass("File"), 0, map[], Record([]), 2)
            == Built(FileMarshaler(), State(map[TString := PrimitiveM(Text), TDouble := PrimitiveM(Number)], 0))
  {
    HookNames();
    var cfg := FileConfig();
    var c1 := map[TString := PrimitiveM(Text)];
    assert Properties(cfg.classes, TClass("File"))[0] == filename;
    assert TryProviders(cfg, State(map[], 1), TString, 0, 1) == Built(PrimitiveM(Text), State(c1, 1));
    assert Resolve(cfg, State(map[], 2), TString) == Built(PrimitiveM(Text), State(c1, 1));
    FirstField("FilenameProp", Text);
    FileLoopFrom1();
  }

  lemma FileResolves()
    ensures New(FileConfig(), map[], TClass("File")).Built?
    ensures New(FileConfig(), map[], TClass("File")).m == FileMarshaler()
  {
    var cfg := FileConfig();
    var t := TClass("File");
    FileLoopFrom0();
    assert ProviderNew(cfg, ObjectP(Hook), State(map[], 2), t, 2).Built?;
    assert TryProviders(cfg, State(map[], 2), t, 1, 2).m == FileMarshaler();
    assert TryProviders(cfg, State(map[], 2), t, 0, 2).m == FileMarshaler();
  }

  function FileRecord(): FxValue {
    ObjRecordV(FileMarshaler().ty, Ref(0), FileMarshaler().mapping)
  }

  lemma FileHeapOk()
    ensures HeapOk(FileHeap())
  {
    assert ObjOk(FileHeap(), FileHeap()[0]);
  }

  /** Marshaling the file object wraps the reference without reading it. */
  lemma Test1Marshal()
    ensures HeapOk(FileHeap())
    ensures Marshal(FileConfig(), map[], FileHeap(), Ref(0)).0 == Ok(FileRecord())
  {
    FileHeapOk();
    var h := FileHeap();
    assert RuntimeType(h, Ref(0)) == TClass("File");
    FileResolves();
    assert Apply(FileMarshaler(), h, Ref(0)) == Ok(Some(FileRecord()));
  }

  lemma Test1Reads()
    ensures HeapOk(FileHeap())
    ensures GetField(FileHeap(), FileRecord(), "LengthProp") == Ok(NumberV(12.0))
    ensures GetField(FileHeap(), FileRecord(), "FilenameProp") == Ok(StringV("foo.txt"))
    ensures GetField(FileHeap(), FileRecord(), "_SkipProp") == Ok(ErrorV)
  {
    FileHeapOk();
    var h := FileHeap();
    var m := FileMarshaler();
    assert ReadProperty(h, Ref(0), length) == Ok(DoubleV(12.0));
    assert TryGetField(m.mapping, h, Ref(0), "LengthProp") == Ok(Some(NumberV(12.0)));
    assert ReadProperty(h, Ref(0), filename) == Ok(StrV("foo.txt"));
    assert TryGetField(m.mapping, h, Ref(0), "FilenameProp") == Ok(Some(StringV("foo.txt")));
    assert "_SkipProp" !in m.mapping;
  }

  lemma FileRecordFields()
    ensures FileRecord().ty.Record? && FieldNames(FileRecord().ty.fields) == ["FilenameProp", "LengthProp"]
  {
    var fields := [Field("FilenameProp", Text), Field("LengthProp", Number)];
    assert FileRecord().ty == Record(fields);
    assert FieldNames(fields) == ["FilenameProp", "LengthProp"];
  }

  /** Test1: the renamed field reads the property, the record hands back
      the same object, and the skipped property is not a field. */
  lemma Test1Renaming()
    ensures HeapOk(FileHeap())
    ensures var x := Marshal(FileConfig(), map[], FileHeap(), Ref(0)).0;
            && x.Ok? && x.value.ObjRecordV?
            && GetField(FileHeap(), x.value, "LengthProp") == Ok(NumberV(12.0))
            && GetField(FileHeap(), x.value, "FilenameProp") == Ok(StringV("foo.txt"))
            && Source(x.value) == Ref(0)
            && "_SkipProp" !in FieldNames(x.value.ty.fields)
            && GetField(FileHeap(), x.value, "_SkipProp") == Ok(ErrorV)
  {
    Test1Marshal();
    Test1Reads();
    FileRecordFields();
  }

  function FileConfigA(): RevisionA.ConfigA {
    RevisionA.ConfigA(FileClasses(), [RevisionA.PrimitiveA, RevisionA.ObjectA(Hook)])
  }

  lemma FileRanked()
    ensures RevisionA.Ranked(FileClasses(), map["File" := 0])
  {
    assert forall j | 0 <= j < 3 :: RevisionA.Height(map["File" := 0], FileClasses()["File"][j].ty) == 0;
  }

  /** The hook keeps `Filename` and `Length` under their new names, in
      order, and drops `_Skip`. */
  lemma FileRetainedNames()
    ensures MarshalCache.RetainedNames(Hook, [filename, length, skip]) == ["FilenameProp", "LengthProp"]
    ensures MarshalCache.LastMapped(Hook, [filename, length, skip], "FilenameProp") == Some(filename)
    ensures MarshalCache.LastMapped(Hook, [filename, length, skip], "LengthProp") == Some(length)
  {
    HookNames();
    assert [skip][1..] == [] && [length, skip][1..] == [skip] && [filename, length, skip][1..] == [length, skip];
    assert MarshalCache.RetainedNames(Hook, [skip]) == [];
    assert MarshalCache.RetainedNames(Hook, [length, skip]) == ["LengthProp"];
    assert MarshalCache.LastMapped(Hook, [skip], "FilenameProp") == None;
    assert MarshalCache.LastMapped(Hook, [skip], "LengthProp") == None;
    assert MarshalCache.LastMapped(Hook, [length, skip], "FilenameProp") == None;
    assert MarshalCache.LastMapped(Hook, [length, skip], "LengthProp") == Some(length);
  }

  /** The same hook under the earlier revision, whose `_mapper` the test
      sets: the record provider builds the fields `FilenameProp` and
      `LengthProp`, in that order, each reading its own property, and
      nothing for `_Skip`. */
  lemma Test1BuildsA(cache: RevisionA.Cache)
    ensures RevisionA.Ranked(FileClasses(), map["File" := 0])
    ensures RevisionA.ProviderNewA(FileConfigA(), map["File" := 0], cache, RevisionA.ObjectA(Hook), TClass("File")).Built?
  {
    FileRanked();
    assert FileConfigA().providers[0].PrimitiveA? && FileConfigA().providers[1].ObjectA?;
  }

  lemma Test1NamesA(cache: RevisionA.Cache)
    ensures RevisionA.Ranked(FileClasses(), map["File" := 0])
    ensures var r := RevisionA.ProviderNewA(FileConfigA(), map["File" := 0], cache, RevisionA.ObjectA(Hook), TClass("File"));
            r.Built? && FieldNames(r.m.ty.fields) == ["FilenameProp", "LengthProp"]
  {
    Test1BuildsA(cache);
    assert Properties(FileConfigA().classes, TClass("File")) == [filename, length, skip];
    FileRetainedNames();
    RevisionA.ObjectProviderFieldsA(FileConfigA(), map["File" := 0], Hook, cache, TClass("File"));
  }

  lemma Test1KeysA(cache: RevisionA.Cache)
    ensures RevisionA.Ranked(FileClasses(), map["File" := 0])
    ensures var r := RevisionA.ProviderNewA(FileConfigA(), map["File" := 0], cache, RevisionA.ObjectA(Hook), TClass("File"));
            r.Built? && forall n :: n in r.m.mapping <==> n == "FilenameProp" || n == "LengthProp"
  {
    Test1BuildsA(cache);
    assert Properties(FileConfigA().classes, TClass("File")) == [filename, length, skip];
    FileRetainedNames();
    RevisionA.ObjectProviderFieldsA(FileConfigA(), map["File" := 0], Hook, cache, TClass("File"));
    var r := RevisionA.ProviderNewA(FileConfigA(), map["File" := 0], cache, RevisionA.ObjectA(Hook), TClass("File"));
    KeysOfTwo(r.m.mapping, "FilenameProp", "LengthProp");
  }

  lemma KeysOfTwo(mapping: map<string, Getter>, a: string, b: string)
    requires forall n :: n in mapping <==> n in [a, b]
    ensures forall n :: n in mapping <==> n == a || n == b
  {
  }

  lemma Test1GettersA(cache: RevisionA.Cache)
    ensures RevisionA.Ranked(FileClasses(), map["File" := 0])
    ensures var r := RevisionA.ProviderNewA(FileConfigA(), map["File" := 0], cache, RevisionA.ObjectA(Hook), TClass("File"));
            && r.Built?
            && "FilenameProp" in r.m.mapping && r.m.mapping["FilenameProp"].prop == filename
            && "LengthProp" in r.m.mapping && r.m.mapping["LengthProp"].prop == length
  {
    Test1BuildsA(cache);
    assert Properties(FileConfigA().classes, TClass("File")) == [filename, length, skip];
    FileRetainedNames();
    RevisionA.ObjectProviderFieldsA(FileConfigA(), map["File" := 0], Hook, cache, TClass("File"));
  }

  /** The same hook under the earlier revision, whose `_mapper` the test
      sets: the record provider builds the fields `FilenameProp` and
      `LengthProp`, in that order, each reading its own property, and
      nothing for `_Skip`. */
  lemma Test1RenamingA(cache: RevisionA.Cache)
    ensures RevisionA.Ranked(FileClasses(), map["File" := 0])
    ensures var r := RevisionA.ProviderNewA(FileConfigA(), map["File" := 0], cache, RevisionA.ObjectA(Hook), TClass("File"));
            && r.Built?
            && FieldNames(r.m.ty.fields) == ["FilenameProp", "LengthProp"]
            && (forall n :: n in r.m.mapping <==> n == "FilenameProp" || n == "LengthProp")
            && "FilenameProp" in r.m.mapping && r.m.mapping["FilenameProp"].prop == filename
            && "LengthProp" in r.m.mapping && r.m.mapping["LengthProp"].prop == length
  {
    Test1NamesA(cache);
    Test1KeysA(cache);
    Test1GettersA(cache);
  }

  /** Adding a field to a record type with no field or one field. */
  lemma FirstField(name: string, ty: FxType)
    ensures AddField(Record([]), name, ty) == Record([Field(name, ty)])
  {
  }

  lemma Overwrite<K, V>(m: map<K, V>, k: K, a: V, b: V)
    ensures m[k := a][k := b] == m[k := b]
  {
  }

  lemma SecondField(f: Field, name: string, ty: FxType)
    ensures AddField(Record([f]), name, ty) == Record([f, Field(name, ty)])
  {
  }

  // ---------------------------------------------------------------------
  // Test2: three nested anonymous objects, read as x.two.three.data3.

  const data1 := Prop("data1", TString, true)
  const two := Prop("two", TClass("Two"), true)
  const data2 := Prop("data2", TString, true)
  const three := Prop("three", TClass("Three"), true)
  const data3 := Prop("data3", TString, true)

  function NestedClasses(): ClassTable {
    map["One" := [data1, two], "Two" := [data2, three], "Three" := [data3]]
  }

  function NestedHeap(): Heap {
    map[0 := Instance("One", map["data1" := StrV("one"), "two" := Ref(1)]),
        1 := Instance("Two", map["data2" := StrV("two"), "three" := Ref(2)]),
        2 := Instance("Three", map["data3" := StrV("three")])]
  }

  lemma NestedHeapOk()
    ensures HeapOk(NestedHeap())
  {
    var h := NestedHeap();
    assert ObjOk(h, h[0]) && ObjOk(h, h[1]) && ObjOk(h, h[2]);
  }

  lemma NestedProperties()
    ensures Properties(NestedClasses(), TClass("One")) == [data1, two]
    ensures Properties(NestedClasses(), TClass("Two")) == [data2, three]
    ensures Properties(NestedClasses(), TClass("Three")) == [data3]
  {
  }

  function NestedConfig(): Config {
    Config(NestedClasses(), DefaultProviders())
  }

  /** The marshaler the guarded revision builds for `Two`, one level down:
      by then the shared counter is spent, so both fields are `Empty`. */
  function TruncatedTwo(): Marshaler {
    ObjectM(Record([Field("data2", Blank), Field("three", Blank)]),
            map["data2" := Getter(data2, EmptyM), "three" := Getter(three, EmptyM)])
  }

  function TruncatedOne(): Marshaler {
    ObjectM(Record([Field("data1", Text), Field("two", TruncatedTwo().ty)]),
            map["data1" := Getter(data1, PrimitiveM(Text)), "two" := Getter(two, TruncatedTwo())])
  }

  lemma TwoLoopSpent()
    ensures FieldsLoop(NestedConfig(), DefaultMapper, State(map[TString := PrimitiveM(Text)], 0), TClass("Two"),
                       0, map[], Record([]), 0)
            == Built(TruncatedTwo(), State(map[TString := PrimitiveM(Text)], -2))
  {
    var cfg := NestedConfig();
    var c1 := map[TString := PrimitiveM(Text)];
    var t := TClass("Two");
    NestedProperties();
    LoopTakes(cfg, DefaultMapper, State(c1, 0), t, 0, map[], Record([]), 0, EmptyM, State(c1, -1));
    FirstField("data2", TypeOf(EmptyM));
    LoopTakes(cfg, DefaultMapper, State(c1, -1), t, 1, map["data2" := Getter(data2, EmptyM)],
              Record([Field("data2", Blank)]), 0, EmptyM, State(c1, -2));
    SecondField(Field("data2", Blank), "three", TypeOf(EmptyM));
    assert map["data2" := Getter(data2, EmptyM)]["three" := Getter(three, EmptyM)] == TruncatedTwo().mapping;
    LoopEnds(cfg, DefaultMapper, State(c1, -2), t, TruncatedTwo().mapping, TruncatedTwo().ty, 0);
  }

  lemma TwoResolvesSpent()
    ensures Resolve(NestedConfig(), State(map[TString := PrimitiveM(Text)], 1), TClass("Two"))
            == Built(TruncatedTwo(), State(map[TString := PrimitiveM(Text), TClass("Two") := TruncatedTwo()], -2))
  {
    var cfg := NestedConfig();
    var c1 := map[TString := PrimitiveM(Text)];
    var t := TClass("Two");
    ResolveMiss(cfg, State(c1, 1), t);
    Declines(cfg, State(c1, 0), t, 0, 0);
    TwoLoopSpent();
    ObjectBuilds(cfg, DefaultMapper, State(c1, 0), t, 1, 0, TruncatedTwo(), State(c1, -2));
  }

  lemma OneFirstField()
    ensures FieldsLoop(NestedConfig(), DefaultMapper, State(map[], 2), TClass("One"), 0, map[], Record([]), 2)
            == FieldsLoop(NestedConfig(), DefaultMapper, State(map[TString := PrimitiveM(Text)], 1), TClass("One"), 1,
                          map["data1" := Getter(data1, PrimitiveM(Text))], Record([Field("data1", Text)]), 2)
  {
    var cfg := NestedConfig();
    var c1 := map[TString := PrimitiveM(Text)];
    var t := TClass("One");
    NestedProperties();
    ResolveMiss(cfg, State(map[], 2), TString);
    PrimitiveBuilds(cfg, State(map[], 1), TString, 0, 1);
    LoopTakes(cfg, DefaultMapper, State(map[], 2), t, 0, map[], Record([]), 2, PrimitiveM(Text), State(c1, 1));
    FirstField("data1", TypeOf(PrimitiveM(Text)));
  }

  lemma OneSecondField()
    ensures FieldsLoop(NestedConfig(), DefaultMapper, State(map[TString := PrimitiveM(Text)], 1), TClass("One"), 1,
                       map["data1" := Getter(data1, PrimitiveM(Text))], Record([Field("data1", Text)]), 2)
            == FieldsLoop(NestedConfig(), DefaultMapper, State(map[TString := PrimitiveM(Text), TClass("Two") := TruncatedTwo()], -2),
                          TClass("One"), 2, TruncatedOne().mapping, TruncatedOne().ty, 2)
  {
    var cfg := NestedConfig();
    var c1 := map[TString := PrimitiveM(Text)];
    var t := TClass("One");
    NestedProperties();
    TwoResolvesSpent();
    LoopTakes(cfg, DefaultMapper, State(c1, 1), t, 1, map["data1" := Getter(data1, PrimitiveM(Text))],
              Record([Field("data1", Text)]), 2, TruncatedTwo(),
              State(map[TString := PrimitiveM(Text), TClass("Two") := TruncatedTwo()], -2));
    SecondField(Field("data1", Text), "two", TruncatedTwo().ty);
    assert map["data1" := Getter(data1, PrimitiveM(Text))]["two" := Getter(two, TruncatedTwo())] == TruncatedOne().mapping;
  }

  lemma OneLoop()
    ensures FieldsLoop(NestedConfig(), DefaultMapper, State(map[], 2), TClass("One"), 0, map[], Record([]), 2)
            == Built(TruncatedOne(), State(map[TString := PrimitiveM(Text), TClass("Two") := TruncatedTwo()], -2))
  {
    var c2 := map[TString := PrimitiveM(Text), TClass("Two") := TruncatedTwo()];
    OneFirstField();
    OneSecondField();
    NestedProperties();
    LoopEnds(NestedConfig(), DefaultMapper, State(c2, -2), TClass("One"), TruncatedOne().mapping, TruncatedOne().ty, 2);
  }

  lemma NestedResolvesTruncated()
    ensures New(NestedConfig(), map[], TClass("One")).Built?
    ensures New(NestedConfig(), map[], TClass("One")).m == TruncatedOne()
  {
    var cfg := NestedConfig();
    var c2 := map[TString := PrimitiveM(Text), TClass("Two") := TruncatedTwo()];
    var t := TClass("One");
    ResolveMiss(cfg, State(map[], 3), t);
    Declines(cfg, State(map[], 2), t, 0, 2);
    OneLoop();
    ObjectBuilds(cfg, DefaultMapper, State(map[], 2), t, 1, 2, TruncatedOne(), State(c2, -2));
  }

  function TruncatedX(): FxValue {
    ObjRecordV(TruncatedOne().ty, Ref(0), TruncatedOne().mapping)
  }

  function TruncatedY(): FxValue {
    ObjRecordV(TruncatedTwo().ty, Ref(1), TruncatedTwo().mapping)
  }

  lemma Test2MarshalB()
    ensures HeapOk(NestedHeap())
    ensures Marshal(NestedConfig(), map[], NestedHeap(), Ref(0)).0 == Ok(TruncatedX())
  {
    NestedHeapOk();
    var h := NestedHeap();
    assert RuntimeType(h, Ref(0)) == TClass("One");
    NestedResolvesTruncated();
    assert Apply(TruncatedOne(), h, Ref(0)) == Ok(Some(TruncatedX()));
  }

  lemma Test2ReadsB()
    ensures HeapOk(NestedHeap())
    ensures GetField(NestedHeap(), TruncatedX(), "data1") == Ok(StringV("one"))
    ensures GetField(NestedHeap(), TruncatedX(), "two") == Ok(TruncatedY())
    ensures GetField(NestedHeap(), TruncatedY(), "three") == Ok(EmptyRecordV)
    ensures GetField(NestedHeap(), TruncatedY(), "data2") == Ok(EmptyRecordV)
  {
    NestedHeapOk();
    var h := NestedHeap();
    assert ReadProperty(h, Ref(0), data1) == Ok(StrV("one"));
    assert TryGetField(TruncatedOne().mapping, h, Ref(0), "data1") == Ok(Some(StringV("one")));
    assert ReadProperty(h, Ref(0), two) == Ok(Ref(1));
    assert TryGetField(TruncatedOne().mapping, h, Ref(0), "two") == Ok(Some(TruncatedY()));
    assert ReadProperty(h, Ref(1), three) == Ok(Ref(2));
    assert TryGetField(TruncatedTwo().mapping, h, Ref(1), "three") == Ok(Some(EmptyRecordV));
    assert ReadProperty(h, Ref(1), data2) == Ok(StrV("two"));
    assert TryGetField(TruncatedTwo().mapping, h, Ref(1), "data2") == Ok(Some(EmptyRecordV));
  }

  /** Test2 under the guarded revision: the one shared counter is spent by
      `data1` and `two`, so `x.two` is a record whose fields are all the
      empty record, and `x.two.three.data3` cannot reach "three". */
  lemma Test2TruncatedByCounter()
    ensures HeapOk(NestedHeap())
    ensures var x := Marshal(NestedConfig(), map[], NestedHeap(), Ref(0)).0;
            && x.Ok? && x.value.ObjRecordV?
            && GetField(NestedHeap(), x.value, "data1") == Ok(StringV("one"))
            && var y := GetField(NestedHeap(), x.value, "two");
               && y.Ok? && y.value.ObjRecordV? && Source(y.value) == Ref(1)
               && GetField(NestedHeap(), y.value, "three") == Ok(EmptyRecordV)
               && GetField(NestedHeap(), y.value, "data2") == Ok(EmptyRecordV)
  {
    Test2MarshalB();
    Test2ReadsB();
  }

  // Test2 under the unguarded revision.

  function NestedConfigA(): RevisionA.ConfigA {
    RevisionA.ConfigA(NestedClasses(), RevisionA.DefaultProvidersA())
  }

  function NestedRank(): map<string, nat> {
    map["One" := 2, "Two" := 1, "Three" := 0]
  }

  /** The nested classes have no cycle: `One` above `Two` above `Three`. */
  lemma NestedIsRanked()
    ensures RevisionA.Ranked(NestedClasses(), NestedRank())
  {
    assert RevisionA.Height(NestedRank(), TClass("Two")) == 2;
    assert RevisionA.Height(NestedRank(), TClass("Three")) == 1;
  }

  // One-step unfoldings of the unguarded resolver on the nested classes.

  lemma MissA(c: RevisionA.Cache, t: HostType)
    requires t !in c
    ensures RevisionA.Ranked(NestedClasses(), NestedRank())
    ensures RevisionA.ResolveA(NestedConfigA(), NestedRank(), c, t) == RevisionA.TryProvidersA(NestedConfigA(), NestedRank(), c, t, 0)
  {
    NestedIsRanked();
  }

  lemma PrimitiveBuildsA(c: RevisionA.Cache, t: HostType)
    requires t !in c && PrimitiveProvider.New(t).Some?
    ensures RevisionA.Ranked(NestedClasses(), NestedRank())
    ensures RevisionA.ResolveA(NestedConfigA(), NestedRank(), c, t)
            == Built(PrimitiveProvider.New(t).value, c[t := PrimitiveProvider.New(t).value])
  {
    MissA(c, t);
  }

  lemma ObjectProviderA(c: RevisionA.Cache, t: HostType)
    requires t !in c && t.TClass?
    ensures RevisionA.Ranked(NestedClasses(), NestedRank())
    ensures RevisionA.ProviderNewA(NestedConfigA(), NestedRank(), c, NestedConfigA().providers[1], t)
            == RevisionA.FieldsLoopA(NestedConfigA(), NestedRank(), DefaultMapper, c, t, 0, map[], Record([]))
    ensures RevisionA.TryProvidersA(NestedConfigA(), NestedRank(), c, t, 0)
            == RevisionA.TryProvidersA(NestedConfigA(), NestedRank(), c, t, 1)
  {
    NestedIsRanked();
    assert NestedConfigA().providers[1] == RevisionA.ObjectA(DefaultMapper);
    assert !RevisionA.AcceptsA(NestedConfigA().providers[0], t);
  }

  lemma ClassBuildsA(c: RevisionA.Cache, t: HostType, m: Marshaler, c': RevisionA.Cache)
    requires t !in c && t.TClass?
    requires RevisionA.Ranked(NestedClasses(), NestedRank())
    requires RevisionA.FieldsLoopA(NestedConfigA(), NestedRank(), DefaultMapper, c, t, 0, map[], Record([])) == Built(m, c')
    ensures RevisionA.ResolveA(NestedConfigA(), NestedRank(), c, t) == Built(m, c'[t := m])
  {
    MissA(c, t);
    ObjectProviderA(c, t);
  }

  lemma LoopTakesA(c: RevisionA.Cache, t: HostType, i: nat, mapping: map<string, Getter>, fxType: FxType,
                   m: Marshaler, c': RevisionA.Cache)
    requires RevisionA.Ranked(NestedClasses(), NestedRank())
    requires i < |Properties(NestedClasses(), t)| && fxType.Record?
    requires Properties(NestedClasses(), t)[i].canRead
    requires RevisionA.ResolveA(NestedConfigA(), NestedRank(), c, Properties(NestedClasses(), t)[i].ty) == Built(m, c')
    ensures var p := Properties(NestedClasses(), t)[i];
            RevisionA.FieldsLoopA(NestedConfigA(), NestedRank(), DefaultMapper, c, t, i, mapping, fxType)
            == RevisionA.FieldsLoopA(NestedConfigA(), NestedRank(), DefaultMapper, c', t, i + 1,
                                     mapping[p.name := Getter(p, m)], AddField(fxType, p.name, TypeOf(m)))
  {
  }

  lemma LoopEndsA(c: RevisionA.Cache, t: HostType, mapping: map<string, Getter>, fxType: FxType)
    requires RevisionA.Ranked(NestedClasses(), NestedRank()) && fxType.Record?
    ensures RevisionA.FieldsLoopA(NestedConfigA(), NestedRank(), DefaultMapper, c, t, |Properties(NestedClasses(), t)|,
                                  mapping, fxType)
            == Built(ObjectM(fxType, mapping), c)
  {
  }

  function FullThree(): Marshaler {
    ObjectM(Record([Field("data3", Text)]), map["data3" := Getter(data3, PrimitiveM(Text))])
  }

  function FullTwo(): Marshaler {
    ObjectM(Record([Field("data2", Text), Field("three", FullThree().ty)]),
            map["data2" := Getter(data2, PrimitiveM(Text)), "three" := Getter(three, FullThree())])
  }

  function FullOne(): Marshaler {
    ObjectM(Record([Field("data1", Text), Field("two", FullTwo().ty)]),
            map["data1" := Getter(data1, PrimitiveM(Text)), "two" := Getter(two, FullTwo())])
  }

  function TextCache(): RevisionA.Cache {
    map[TString := PrimitiveM(Text)]
  }

  lemma ThreeResolvesA()
    ensures RevisionA.Ranked(NestedClasses(), NestedRank())
    ensures RevisionA.ResolveA(NestedConfigA(), NestedRank(), TextCache(), TClass("Three"))
            == Built(FullThree(), TextCache()[TClass("Three") := FullThree()])
  {
    NestedIsRanked();
    var t := TClass("Three");
    NestedProperties();
    LoopTakesA(TextCache(), t, 0, map[], Record([]), PrimitiveM(Text), TextCache());
    FirstField("data3", TypeOf(PrimitiveM(Text)));
    assert map[]["data3" := Getter(data3, PrimitiveM(Text))] == FullThree().mapping;
    LoopEndsA(TextCache(), t, FullThree().mapping, FullThree().ty);
    ClassBuildsA(TextCache(), t, FullThree(), TextCache());
  }

  lemma TwoLoopA()
    ensures RevisionA.Ranked(NestedClasses(), NestedRank())
    ensures RevisionA.FieldsLoopA(NestedConfigA(), NestedRank(), DefaultMapper, TextCache(), TClass("Two"), 0, map[], Record([]))
            == Built(FullTwo(), TextCache()[TClass("Three") := FullThree()])
  {
    NestedIsRanked();
    var t := TClass("Two");
    var c3 := TextCache()[TClass("Three") := FullThree()];
    NestedProperties();
    LoopTakesA(TextCache(), t, 0, map[], Record([]), PrimitiveM(Text), TextCache());
    FirstField("data2", TypeOf(PrimitiveM(Text)));
    assert map[]["data2" := Getter(data2, PrimitiveM(Text))] == map["data2" := Getter(data2, PrimitiveM(Text))];
    ThreeResolvesA();
    LoopTakesA(TextCache(), t, 1, map["data2" := Getter(data2, PrimitiveM(Text))], Record([Field("data2", Text)]),
               FullThree(), c3);
    SecondField(Field("data2", Text), "three", TypeOf(FullThree()));
    assert map["data2" := Getter(data2, PrimitiveM(Text))]["three" := Getter(three, FullThree())] == FullTwo().mapping;
    LoopEndsA(c3, t, FullTwo().mapping, FullTwo().ty);
  }

  lemma TwoResolvesA()
    ensures RevisionA.Ranked(NestedClasses(), NestedRank())
    ensures RevisionA.ResolveA(NestedConfigA(), NestedRank(), TextCache(), TClass("Two"))
            == Built(FullTwo(), TextCache()[TClass("Three") := FullThree()][TClass("Two") := FullTwo()])
  {
    TwoLoopA();
    ClassBuildsA(TextCache(), TClass("Two"), FullTwo(), TextCache()[TClass("Three") := FullThree()]);
  }

  lemma OneLoopFrom1A()
    ensures RevisionA.Ranked(NestedClasses(), NestedRank())
    ensures RevisionA.FieldsLoopA(NestedConfigA(), NestedRank(), DefaultMapper, TextCache(), TClass("One"), 1,
                                  map["data1" := Getter(data1, PrimitiveM(Text))], Record([Field("data1", Text)]))
            == Built(FullOne(), TextCache()[TClass("Three") := FullThree()][TClass("Two") := FullTwo()])
  {
    NestedIsRanked();
    var t := TClass("One");
    var c2 := TextCache()[TClass("Three") := FullThree()][TClass("Two") := FullTwo()];
    NestedProperties();
    TwoResolvesA();
    LoopTakesA(TextCache(), t, 1, map["data1" := Getter(data1, PrimitiveM(Text))], Record([Field("data1", Text)]),
               FullTwo(), c2);
    SecondField(Field("data1", Text), "two", TypeOf(FullTwo()));
    assert map["data1" := Getter(data1, PrimitiveM(Text))]["two" := Getter(two, FullTwo())] == FullOne().mapping;
    LoopEndsA(c2, t, FullOne().mapping, FullOne().ty);
  }

  lemma OneFirstFieldA(c0: RevisionA.Cache)
    requires c0 == map[]
    ensures RevisionA.Ranked(NestedClasses(), NestedRank())
    ensures RevisionA.FieldsLoopA(NestedConfigA(), NestedRank(), DefaultMapper, c0, TClass("One"), 0, map[], Record([]))
            == RevisionA.FieldsLoopA(NestedConfigA(), NestedRank(), DefaultMapper, TextCache(), TClass("One"), 1,
                                     map["data1" := Getter(data1, PrimitiveM(Text))], Record([Field("data1", Text)]))
  {
    NestedIsRanked();
    NestedProperties();
    var p := Properties(NestedClasses(), TClass("One"))[0];
    PrimitiveBuildsA(c0, TString);
    assert c0[TString := PrimitiveM(Text)] == TextCache();
    LoopTakesA(c0, TClass("One"), 0, map[], Record([]), PrimitiveM(Text), TextCache());
    FirstField(p.name, TypeOf(PrimitiveM(Text)));
    assert map[][p.name := Getter(p, PrimitiveM(Text))] == map["data1" := Getter(data1, PrimitiveM(Text))];
  }

  lemma OneLoopA(c0: RevisionA.Cache)
    requires c0 == map[]
    ensures RevisionA.Ranked(NestedClasses(), NestedRank())
    ensures RevisionA.FieldsLoopA(NestedConfigA(), NestedRank(), DefaultMapper, c0, TClass("One"), 0, map[], Record([]))
            == Built(FullOne(), TextCache()[TClass("Three") := FullThree()][TClass("Two") := FullTwo()])
  {
    OneFirstFieldA(c0);
    OneLoopFrom1A();
  }

  lemma OneResolvesA()
    ensures RevisionA.Ranked(NestedClasses(), NestedRank())
    ensures RevisionA.ResolveA(NestedConfigA(), NestedRank(), map[], TClass("One")).Built?
    ensures RevisionA.ResolveA(NestedConfigA(), NestedRank(), map[], TClass("One")).m == FullOne()
  {
    OneLoopA(map[]);
    var c2 := TextCache()[TClass("Three") := FullThree()][TClass("Two") := FullTwo()];
    ClassBuildsA(map[], TClass("One"), FullOne(), c2);
  }

  function FullRecord(m: Marshaler, a: Addr): FxValue
    requires m.ObjectM?
  {
    ObjRecordV(m.ty, Ref(a), m.mapping)
  }

  lemma Test2ReadsA()
    ensures HeapOk(NestedHeap())
    ensures RevisionA.GetFieldA(NestedHeap(), FullRecord(FullOne(), 0), "two") == Ok(Some(FullRecord(FullTwo(), 1)))
    ensures RevisionA.GetFieldA(NestedHeap(), FullRecord(FullTwo(), 1), "three") == Ok(Some(FullRecord(FullThree(), 2)))
    ensures RevisionA.GetFieldA(NestedHeap(), FullRecord(FullThree(), 2), "data3") == Ok(Some(StringV("three")))
  {
    NestedHeapOk();
    var h := NestedHeap();
    assert ReadProperty(h, Ref(0), two) == Ok(Ref(1));
    assert ReadProperty(h, Ref(1), three) == Ok(Ref(2));
    assert ReadProperty(h, Ref(2), data3) == Ok(StrV("three"));
  }

  /** Test2 under the unguarded revision: `x.two.three.data3` is "three". */
  lemma Test2NavigatesWithoutCounter()
    ensures RevisionA.Ranked(NestedClasses(), NestedRank()) && HeapOk(NestedHeap())
    ensures RevisionA.ResolveA(NestedConfigA(), NestedRank(), map[], TClass("One")).Built?
    ensures RevisionA.ResolveA(NestedConfigA(), NestedRank(), map[], TClass("One")).m == FullOne()
    ensures Apply(FullOne(), NestedHeap(), Ref(0)) == Ok(Some(FullRecord(FullOne(), 0)))
    ensures RevisionA.GetFieldA(NestedHeap(), FullRecord(FullOne(), 0), "two") == Ok(Some(FullRecord(FullTwo(), 1)))
    ensures RevisionA.GetFieldA(NestedHeap(), FullRecord(FullTwo(), 1), "three") == Ok(Some(FullRecord(FullThree(), 2)))
    ensures RevisionA.GetFieldA(NestedHeap(), FullRecord(FullThree(), 2), "data3") == Ok(Some(StringV("three")))
  {
    OneResolvesA();
    Test2ReadsA();
  }

  // ---------------------------------------------------------------------
  // A self-referential class: three nodes in a cycle.

  const dataP := Prop("Data", TInt, true)
  const nextP := Prop("Next", TClass("Node"), true)

  function NodeClasses(): ClassTable {
    map["Node" := [dataP, nextP]]
  }

  function NodeHeap(): Heap {
    map[0 := Instance("Node", map["Data" := IntV(10), "Next" := Ref(1)]),
        1 := Instance("Node", map["Data" := IntV(20), "Next" := Ref(2)]),
        2 := Instance("Node", map["Data" := IntV(30), "Next" := Ref(0)])]
  }

  lemma NodeHeapOk()
    ensures HeapOk(NodeHeap())
  {
    var h := NodeHeap();
    assert ObjOk(h, h[0]) && ObjOk(h, h[1]) && ObjOk(h, h[2]);
  }

  function NodeConfig(): Config {
    Config(NodeClasses(), DefaultProviders())
  }

  function NumberCache(): Cache {
    map[TInt := PrimitiveM(Number)]
  }

  /** The marshaler built for `Node` one level down, with the counter spent. */
  function InnerNode(): Marshaler {
    ObjectM(Record([Field("Data", Blank), Field("Next", Blank)]),
            map["Data" := Getter(dataP, EmptyM), "Next" := Getter(nextP, EmptyM)])
  }

  /** The marshaler the top-level call builds for `Node`. */
  function OuterNode(): Marshaler {
    ObjectM(Record([Field("Data", Number), Field("Next", InnerNode().ty)]),
            map["Data" := Getter(dataP, PrimitiveM(Number)), "Next" := Getter(nextP, InnerNode())])
  }

  lemma InnerNodeLoop()
    ensures FieldsLoop(NodeConfig(), DefaultMapper, State(NumberCache(), 0), TClass("Node"), 0, map[], Record([]), 0)
            == Built(InnerNode(), State(NumberCache(), -2))
  {
    var cfg := NodeConfig();
    var t := TClass("Node");
    assert Properties(cfg.classes, t) == [dataP, nextP];
    LoopTakes(cfg, DefaultMapper, State(NumberCache(), 0), t, 0, map[], Record([]), 0, EmptyM, State(NumberCache(), -1));
    FirstField("Data", TypeOf(EmptyM));
    LoopTakes(cfg, DefaultMapper, State(NumberCache(), -1), t, 1, map["Data" := Getter(dataP, EmptyM)],
              Record([Field("Data", Blank)]), 0, EmptyM, State(NumberCache(), -2));
    SecondField(Field("Data", Blank), "Next", TypeOf(EmptyM));
    assert map["Data" := Getter(dataP, EmptyM)]["Next" := Getter(nextP, EmptyM)] == InnerNode().mapping;
    LoopEnds(cfg, DefaultMapper, State(NumberCache(), -2), t, InnerNode().mapping, InnerNode().ty, 0);
  }

  /** `Next` misses the cache (the outer marshaler is not stored yet), so
      `Node` is built a second time, with the counter at 0. */
  lemma InnerNodeResolves()
    ensures Resolve(NodeConfig(), State(NumberCache(), 1), TClass("Node"))
            == Built(InnerNode(), State(NumberCache()[TClass("Node") := InnerNode()], -2))
  {
    var cfg := NodeConfig();
    var t := TClass("Node");
    ResolveMiss(cfg, State(NumberCache(), 1), t);
    Declines(cfg, State(NumberCache(), 0), t, 0, 0);
    InnerNodeLoop();
    ObjectBuilds(cfg, DefaultMapper, State(NumberCache(), 0), t, 1, 0, InnerNode(), State(NumberCache(), -2));
  }

  lemma OuterNodeLoop()
    ensures FieldsLoop(NodeConfig(), DefaultMapper, State(map[], 2), TClass("Node"), 0, map[], Record([]), 2)
            == Built(OuterNode(), State(NumberCache()[TClass("Node") := InnerNode()], -2))
  {
    var cfg := NodeConfig();
    var t := TClass("Node");
    var c2 := NumberCache()[t := InnerNode()];
    assert Properties(cfg.classes, t) == [dataP, nextP];
    ResolveMiss(cfg, State(map[], 2), TInt);
    PrimitiveBuilds(cfg, State(map[], 1), TInt, 0, 1);
    LoopTakes(cfg, DefaultMapper, State(map[], 2), t, 0, map[], Record([]), 2, PrimitiveM(Number), State(NumberCache(), 1));
    FirstField("Data", TypeOf(PrimitiveM(Number)));
    InnerNodeResolves();
    LoopTakes(cfg, DefaultMapper, State(NumberCache(), 1), t, 1, map["Data" := Getter(dataP, PrimitiveM(Number))],
              Record([Field("Data", Number)]), 2, InnerNode(), State(c2, -2));
    SecondField(Field("Data", Number), "Next", TypeOf(InnerNode()));
    assert map["Data" := Getter(dataP, PrimitiveM(Number))]["Next" := Getter(nextP, InnerNode())] == OuterNode().mapping;
    LoopEnds(cfg, DefaultMapper, State(c2, -2), t, OuterNode().mapping, OuterNode().ty, 2);
  }

  /** Resolving `Node` builds two different marshalers for the one type; the
      inner one is stored first and then overwritten by the outer one. */
  lemma NodeResolvesTwice()
    ensures New(NodeConfig(), map[], TClass("Node"))
            == Built(OuterNode(), NumberCache()[TClass("Node") := OuterNode()])
    ensures InnerNode() != OuterNode()
  {
    var cfg := NodeConfig();
    var t := TClass("Node");
    ResolveMiss(cfg, State(map[], 3), t);
    Declines(cfg, State(map[], 2), t, 0, 2);
    OuterNodeLoop();
    ObjectBuilds(cfg, DefaultMapper, State(map[], 2), t, 1, 2, OuterNode(), State(NumberCache()[t := InnerNode()], -2));
    Overwrite(NumberCache(), t, InnerNode(), OuterNode());
  }

  function NodeRecord(m: Marshaler, a: Addr): FxValue
    requires m.ObjectM?
  {
    ObjRecordV(m.ty, Ref(a), m.mapping)
  }

  lemma NodeReads()
    ensures HeapOk(NodeHeap())
    ensures GetField(NodeHeap(), NodeRecord(OuterNode(), 0), "Data") == Ok(NumberV(10.0))
    ensures GetField(NodeHeap(), NodeRecord(OuterNode(), 0), "Next") == Ok(NodeRecord(InnerNode(), 1))
    ensures GetField(NodeHeap(), NodeRecord(InnerNode(), 1), "Data") == Ok(EmptyRecordV)
    ensures GetField(NodeHeap(), NodeRecord(InnerNode(), 1), "Next") == Ok(EmptyRecordV)
  {
    NodeHeapOk();
    var h := NodeHeap();
    assert TryGetField(OuterNode().mapping, h, Ref(0), "Data") == Ok(Some(NumberV(10.0))) by {
      assert ReadProperty(h, Ref(0), dataP) == Ok(IntV(10));
    }
    assert TryGetField(OuterNode().mapping, h, Ref(0), "Next") == Ok(Some(NodeRecord(InnerNode(), 1))) by {
      assert ReadProperty(h, Ref(0), nextP) == Ok(Ref(1));
    }
    assert TryGetField(InnerNode().mapping, h, Ref(1), "Data") == Ok(Some(EmptyRecordV)) by {
      assert ReadProperty(h, Ref(1), dataP) == Ok(IntV(20));
    }
    assert TryGetField(InnerNode().mapping, h, Ref(1), "Next") == Ok(Some(EmptyRecordV)) by {
      assert ReadProperty(h, Ref(1), nextP) == Ok(Ref(2));
    }
  }

  /** Reading the cycle under the guarded revision: the first node's data is
      10, but the next node's data is the empty record, not 20. */
  lemma NodeMarshal()
    ensures HeapOk(NodeHeap())
    ensures Marshal(NodeConfig(), map[], NodeHeap(), Ref(0)).0 == Ok(NodeRecord(OuterNode(), 0))
  {
    NodeHeapOk();
    var h := NodeHeap();
    assert RuntimeType(h, Ref(0)) == TClass("Node");
    NodeResolvesTwice();
    assert Apply(OuterNode(), h, Ref(0)) == Ok(Some(NodeRecord(OuterNode(), 0)));
  }

  lemma NodeCycleTruncated()
    ensures HeapOk(NodeHeap())
    ensures Marshal(NodeConfig(), map[], NodeHeap(), Ref(0)).0 == Ok(NodeRecord(OuterNode(), 0))
    ensures GetField(NodeHeap(), NodeRecord(OuterNode(), 0), "Data") == Ok(NumberV(10.0))
    ensures GetField(NodeHeap(), NodeRecord(OuterNode(), 0), "Next") == Ok(NodeRecord(InnerNode(), 1))
    ensures GetField(NodeHeap(), NodeRecord(InnerNode(), 1), "Data") == Ok(EmptyRecordV)
  {
    NodeMarshal();
    NodeReads();
  }

  function NodeConfigA(): RevisionA.ConfigA {
    RevisionA.ConfigA(NodeClasses(), RevisionA.DefaultProvidersA())
  }

  lemma NodeIsSelfReferent()
    ensures RevisionA.SelfReferent(NodeConfigA(), "Node", 1)
  {
    assert NodeConfigA().providers == [RevisionA.PrimitiveA, RevisionA.ObjectA(DefaultMapper)];
  }

  /** The unguarded revision cannot marshal a `Node`: whatever the fuel,
      resolving `Node` resolves `Data` and then `Next`, which is `Node`
      again, until the fuel runs out; nothing is ever answered. */
  lemma {:induction false} NodeNeverResolves(fuel: nat, cache: RevisionA.Cache)
    requires TClass("Node") !in cache
    ensures RevisionA.ResolveF(NodeConfigA(), fuel, cache, TClass("Node")).None?
  {
    var cfg := NodeConfigA();
    var t := TClass("Node");
    if fuel > 0 {
      var f := fuel - 1;
      assert cfg.providers == [RevisionA.PrimitiveA, RevisionA.ObjectA(DefaultMapper)];
      assert Properties(cfg.classes, t) == [dataP, nextP];
      NodeIsSelfReferent();
      RevisionA.ResolveFKeepsOut(cfg, "Node", 1, f, cache, TInt);
      var data := RevisionA.ResolveF(cfg, f, cache, TInt);
      assert data.None? || data.value.Built? by {
        if TInt !in cache && f > 0 {
          assert RevisionA.ProviderF(cfg, f - 1, cache, RevisionA.PrimitiveA, TInt) == Some(Built(PrimitiveM(Number), cache));
        }
      }
      if data.Some? {
        NodeNeverResolves(f, data.value.st);
      }
      assert RevisionA.LoopF(cfg, f, DefaultMapper, cache, t, 0, map[], Record([])).None?;
      assert RevisionA.TryF(cfg, f, cache, t, 1).None?;
    }
  }

  // ---------------------------------------------------------------------
  // A FormulaValue-typed property holding null.

  const boxed := Prop("Value", TFormulaValue, true)

  function BoxRecord(): FxValue {
    ObjRecordV(Record([Field("Value", NullType)]), Ref(0), map["Value" := Getter(boxed, IdentityM)])
  }

  function BoxHeap(): Heap {
    map[0 := Instance("Box", map["Value" := Null])]
  }

  /** The earlier revision hands the null on; the later one turns it into
      the error value. */
  lemma NullFieldDiffers()
    ensures HeapOk(BoxHeap())
    ensures RevisionA.GetFieldA(BoxHeap(), BoxRecord(), "Value") == Ok(None)
    ensures GetField(BoxHeap(), BoxRecord(), "Value") == Ok(ErrorV)
  {
    var h := BoxHeap();
    assert ObjOk(h, h[0]);
    assert ReadProperty(h, Ref(0), boxed) == Ok(Null);
  }
}
